# rofi-blocks: the page protocol and reconciliation engine

rofi-blocks is a rofi mode plugin. A menu's content comes from an external
script, which writes newline-delimited JSON page objects to the plugin. The
plugin:

- frames the bytes it reads into lines (`next_line`);
- applies each line as a partial update onto the one live page. A key that
  is absent leaves its member alone, and a JSON null either clears a member
  or collapses it to "", depending on the member;
- compares seven page members before and after the update, and issues one
  renderer call per member that changed (`on_new_input`);
- sends events back to the script through a text template
  (`blocks_mode_private_data_write_to_channel`): the accepted entry, the
  typed input, custom keys, cancel.

The model has these modules:

- `Optional`: `Option`, for a pointer that may be NULL.
- `Json`: JSON values (RFC 8259) as the decoder sees them once a line has
  been parsed, and the `_or_else` accessors.
- `PageData` (`src/page_data.c`): the page store. `GString*` members are
  `Option<string>`. `None` is undefined, `Some("")` is defined and empty,
  `Some(s)` holds a value. `Page` is a class whose methods update its fields
  in place; `Value()` is its abstract value.
- `BlocksModeData` (`src/blocks_mode_data.c`): the private data, which is a
  class `ModeData`. Its `update_*` methods are proved against the pure
  decoder `Decode`, and lemmas about `Decode` state the update rules.
- `Rofi`: the host as the engine sees it. `Mode` holds the private data and
  the displayed prompt. `View` is the renderer, modelled as the trace of
  calls it receives.
- `LineFramer` (`next_line`): `Scan` is one read attempt and `Drain` runs
  attempts until none publishes a line. `NextLine` is the loop, proved
  against `Scan`.
- `Reconciler` (`on_new_input`): `ReconcileActions` is the sequence of
  renderer calls for one line. `ApplyPublished` is one line handled, on
  values: decode, then reconcile. `Run` folds it over the lines the framer
  publishes from the channel, in order. `OnNewInput` is the loop over
  published lines. It is proved to end in exactly the state `Run` gives:
  data, prompt and renderer calls. Lemmas about `Run` give one reload per
  line, the unterminated rest left in the buffer, and the first line
  applied first.
- `Events`: the outbound template, the `blocks_mode_result` dispatch and
  `blocks_mode_preprocess_input`.
- `ModeCallbacks`: `blocks_mode_token_match`,
  `blocks_mode_get_display_value` and
  `blocks_mode_rofi_view_get_current_position`.

Foreign code is passed in as a function-typed parameter and is not
interpreted:

- JSON parsing (`parse`);
- JSON string escaping (`escape`);
- rofi's token matcher (`matches`);
- Pango markup stripping (`strip`), which fails on markup Pango rejects.

A `GIOChannel` is modelled as an `IOChannel`: the characters not yet read
and the text written so far.

The documented default event template has no spaces after its commas. The
code (`src/blocks_mode_data.c:88`) writes `", "` between the members. The
model follows the code (`BlocksModeData.DefaultEventFormat`).

## Model

| member | source | states |
|---|---|---|
| Json.GetMember | src/blocks_mode_data.c:10-11 | the node is present exactly when the key is in the object, and it is the node stored under that key |
| Json.StringMemberOrElse | src/json_glib_extensions.h:14 | a member present as a string gives that string; absent, null or of another type gives the caller's default |
| Json.BooleanMemberOrElse | src/json_glib_extensions.h:12 | a member present as a boolean gives that boolean; anything else gives the default |
| Json.IntMemberOrElse | src/blocks_mode_data.c:59 | a member present as an integer gives that integer; anything else gives the default |
| PageData.Page.constructor | src/page_data.c:9-22 | a fresh page has no lines and case sensitivity off; message, overlay, prompt, placeholder, filter, icon and trigger are undefined; input is defined and empty |
| PageData.StringMemberAfterSet | src/page_data.c:48-60 | in all four defined/undefined transitions the member ends up holding exactly the new string, and is undefined exactly when the new string is NULL |
| PageData.Page.SetStringMember | src/page_data.c:48-60 | the named member holds exactly the new string and every other member of the page is unchanged |
| PageData.IsStringEqual | src/page_data.c:62-69 | true exactly when both members are undefined or both are defined with equal content, that is, equality of the three-state values |
| PageData.UndefinedIsNotEmpty | src/page_data.c:62-69 | undefined and defined-empty compare unequal, in both argument orders |
| PageData.IsStringEqualReflexiveSymmetric | src/page_data.c:62-69 | the comparison is reflexive and symmetric |
| PageData.IsStringMemberEmpty | src/page_data.c:39-41 | a member is empty exactly when it is undefined or of length 0 |
| PageData.StringMemberOrEmpty | src/page_data.c:43-45 | a defined member's text; "" for an undefined member |
| PageData.IsMessageEmpty | src/page_data.c:71-73 | true exactly when the page is NULL, the message is undefined, or the message is "" |
| PageData.GetMessageOrEmptyString | src/page_data.c:75-77 | the message text when the page exists and the message is defined; "" when there is no page or no message |
| PageData.MessageEmptyIffEmptyText | src/page_data.c:71-77 | the message is reported empty exactly when its "or empty" text is "" |
| PageData.GetNumberOfLines | src/page_data.c:101-103 | the length of the line list |
| PageData.GetLineByIndexOrElse | src/page_data.c:105-111 | the fallback exactly when the page is NULL or the index is past the last line; otherwise the line at the index |
| PageData.Page.AddLine | src/page_data.c:114-136 | one line with the given fields is appended at the end; earlier lines and every other member are unchanged |
| PageData.LineOfJsonNode | src/page_data.c:138-154 | a node yields a line exactly when it is a string or an object. A string gives that text, no metatext, empty icon and data, flags off, filter on, and markup exactly when the page default is enabled. An object takes each key that is present with the right type and the documented default otherwise |
| PageData.Page.AddLineJsonNode | src/page_data.c:138-154 | the line list grows by the node's line, or by nothing for any other node; no other member changes |
| PageData.Page.ClearLines | src/page_data.c:156-167 | the line list is empty and no other member changes |
| PageData.LinesOfLength | src/blocks_mode_data.c:72-79 | a `lines` array never yields more lines than it has elements |
| PageData.LinesOfInOrder | src/blocks_mode_data.c:72-79 | when every element is a string or an object, the array yields one line per element, in order, and line k is element k's line |
| BlocksModeData.Tokenize | src/blocks.c:217-219 | no token set exactly when the filter holds nothing but blanks, "" included, as rofi's tokenizer splits at blanks; otherwise the set is built from the filter and the case-sensitivity flag |
| BlocksModeData.ModeData.constructor | src/blocks_mode_data.c:84-97 | a fresh page with an undefined markup default, the default template, entry to focus -1, no tokens, close-on-exit on, an empty buffer and active line, and no write channel |
| BlocksModeData.StringUpdate | src/blocks_mode_data.c:9-18 | an absent key leaves the member unchanged; null gives undefined under allow-null and "" otherwise; a string gives that string; any other value type leaves the member unchanged |
| BlocksModeData.StringUpdateKeepsDefined | src/blocks_mode_data.c:9-18 | without allow-null a defined member stays defined whatever the update carries |
| BlocksModeData.StringUpdateUndefines | src/blocks_mode_data.c:9-18 | a member ends up undefined exactly when an explicit null arrives under allow-null, or when it was undefined and the key brings neither a string nor null |
| BlocksModeData.ModeData.SetTarget | src/page_data.c:48-60 | the page member or the event format named holds the new string; nothing else changes |
| BlocksModeData.ModeData.UpdateString | src/blocks_mode_data.c:9-18 | the target member becomes `StringUpdate` of its old value and nothing else changes |
| BlocksModeData.ModeData.UpdateIcon | src/blocks_mode_data.c:20-22 | the icon follows the string rule with key `icon` and allow-null on |
| BlocksModeData.ModeData.UpdateCaseSensitivity | src/blocks_mode_data.c:24-28 | case sensitivity takes a boolean `case_sensitive` and keeps its value otherwise |
| BlocksModeData.ModeData.UpdatePlaceholder | src/blocks_mode_data.c:30-32 | the placeholder follows the string rule with allow-null off |
| BlocksModeData.ModeData.UpdateFilter | src/blocks_mode_data.c:34-36 | the filter follows the string rule with allow-null on |
| BlocksModeData.ModeData.UpdateMessage | src/blocks_mode_data.c:38-40 | the message follows the string rule with allow-null on |
| BlocksModeData.ModeData.UpdateOverlay | src/blocks_mode_data.c:42-44 | the overlay follows the string rule with allow-null on |
| BlocksModeData.ModeData.UpdatePrompt | src/blocks_mode_data.c:46-48 | the prompt follows the string rule with allow-null on |
| BlocksModeData.ModeData.UpdateInput | src/blocks_mode_data.c:50-52 | the input follows the string rule with allow-null off |
| BlocksModeData.ModeData.UpdateEventFormat | src/blocks_mode_data.c:54-56 | the event template follows the string rule with allow-null off |
| BlocksModeData.ModeData.UpdateFocusEntry | src/blocks_mode_data.c:58-60 | the entry to focus becomes the integer `active_line`, or -1 |
| BlocksModeData.ModeData.UpdateCloseOnChildExit | src/blocks_mode_data.c:62-66 | close-on-exit takes a boolean `close_on_exit` and keeps its value otherwise |
| BlocksModeData.ModeData.UpdateLines | src/blocks_mode_data.c:68-80 | with `lines` present the list is cleared and refilled from the array's elements in order; with it absent the list is untouched |
| BlocksModeData.ModeData.UpdatePage | src/blocks_mode_data.c:120-142 | a line that does not parse changes nothing; otherwise the new value is every rule applied in the source's order, icon first and `active_line` last |
| BlocksModeData.Decode | src/blocks_mode_data.c:128-141 | one page object applied by every `update_*` rule in the source's order; the entry to focus always ends as the `active_line` integer or -1. The field rules are stated by the `Decode*` lemmas |
| BlocksModeData.ApplyLine | src/blocks_mode_data.c:120-142 | a line that does not parse changes nothing; a parsed page is `Decode` of its members and resets the entry to focus |
| BlocksModeData.DecodeLeavesAbsentFieldUnchanged | src/blocks_mode_data.c:128-141 | a page member whose key is absent is not modified by an update |
| BlocksModeData.DecodeFieldPolicy | src/blocks_mode_data.c:20-56 | each page member follows the string rule with its own key and allow-null policy: on for icon, filter, message, overlay and prompt; off for placeholder and input |
| BlocksModeData.DecodeFrame | src/blocks_mode_data.c:120-142 | an update never touches the markup default, the trigger, the token set, the buffer or the active line. It leaves the booleans, the event format and the line list alone when their keys are absent |
| BlocksModeData.DecodeResetsFocus | src/blocks_mode_data.c:58-60 | every update overwrites the entry to focus: the `active_line` integer when present, -1 otherwise |
| BlocksModeData.DecodeKeepsDefined | src/blocks_mode_data.c:30-32 | input and event format, created defined, stay defined; so does a placeholder once set |
| BlocksModeData.DecodeIdempotent | src/blocks_mode_data.c:120-142 | applying the same page object twice is the same as applying it once |
| LineFramer.KeepAliveReappliesPreviousLine | src/blocks.c:155-161 | as written, a lone terminator reports a line without replacing the active line |
| LineFramer.ScanAsWritten | src/blocks.c:145-166 | one attempt of `next_line` as written: a reported line empties the buffer and consumes input; otherwise everything was read and the active line is kept. A lone terminator is reported without replacing the active line (see `KeepAliveReappliesPreviousLine`) |
| LineFramer.Scan | src/blocks.c:145-166 | a published line empties the buffer and consumes input; otherwise everything was read and the active line is unchanged (corrected behaviour, see Findings) |
| LineFramer.ScanWithoutNewline | src/blocks.c:152-165 | with no terminator left to read, all of it is buffered and nothing is published |
| LineFramer.ScanPublishesLine | src/blocks.c:154-161 | a non-empty line, terminator included, becomes the active line; the rest stays unread and the buffer is emptied |
| LineFramer.ScanSkipsKeepAlive | src/blocks.c:155-161 | a lone terminator is discarded and reading goes on after it |
| LineFramer.PublishedLineHasContent | src/blocks.c:154-161 | a published line ends in its only '\n' and has text before it |
| LineFramer.ScanBufferHasNoNewline | src/blocks.c:154-160 | between attempts the buffer never holds a terminator |
| LineFramer.ScanIgnoresActiveLine | src/blocks.c:145-166 | the buffer, the unread rest and the result do not depend on the previous active line |
| LineFramer.DrainLeavesPartialLine | src/blocks.c:173 | after the channel is drained the buffer holds only a partial line |
| LineFramer.DrainWithoutNewline | src/blocks.c:173 | draining text without a terminator publishes no line and buffers all of it |
| LineFramer.Drain | src/blocks.c:173 | running the framer until it reports no line publishes at most one line per character read; what it leaves is stated by `DrainLeavesPartialLine` and `DrainWithoutNewline` |
| LineFramer.NextLine | src/blocks.c:145-166 | the read loop leaves the buffer, active line and channel in exactly the state `Scan` gives, and reports whether a line was published (corrected behaviour, see Findings) |
| Reconciler.ShownOrHidden | src/blocks.c:224 | an overlay or placeholder is shown exactly when it is defined and non-empty, as its own text |
| Reconciler.TokensStayInSync | src/blocks.c:212-221 | rebuilding the tokens exactly when the filter or the case sensitivity changed keeps them equal to the tokens of the current filter (none without a filter) |
| Reconciler.IconCount | src/blocks.c:203-210 | the icon segment issues one icon call exactly when the icon changed, and no call of any other kind |
| Reconciler.CaseSensitiveCount | src/blocks.c:212-221 | the token segment pushes the case sensitivity once exactly when the filter or the case sensitivity changed |
| Reconciler.OverlayCount | src/blocks.c:223-225 | one overlay call exactly when the overlay changed |
| Reconciler.PlaceholderCount | src/blocks.c:227-229 | one placeholder call exactly when the placeholder changed |
| Reconciler.InputCount | src/blocks.c:231-234 | one clear-input and one handle-text call exactly when the input changed |
| Reconciler.PromptCount | src/blocks.c:236-241 | one switch-mode call exactly when the prompt changed |
| Reconciler.FocusCount | src/blocks.c:243-246 | one select call exactly when the entry to focus is not negative |
| Reconciler.IconAndTokenCount | src/blocks.c:203-221 | the icon and token calls, counted by kind |
| Reconciler.TextCount | src/blocks.c:223-234 | the overlay, placeholder and input calls, counted by kind |
| Reconciler.PromptFocusReloadCount | src/blocks.c:236-256 | the prompt, focus and reload calls, counted by kind, with one reload |
| Reconciler.CountSegments | src/blocks.c:203-256 | for each call kind, the count for one line is the sum of one indicator per changed member |
| Reconciler.ReconcileActions | src/blocks.c:203-256 | the renderer calls for one line, in the source's order, always ending in the reload; `OneCallPerChange` and `InputClearedThenTyped` state what it holds |
| Reconciler.OneCallPerChange | src/blocks.c:176-256 | one call per changed member and none for an unchanged one; one case-sensitivity push on a filter change; one select for a pending focus; exactly one reload per line, as the last call |
| Reconciler.InputClearedThenTyped | src/blocks.c:231-234 | a changed input clears the renderer's input and then types the new input, in consecutive calls |
| Reconciler.NoChangeOnlyReloads | src/blocks.c:176-256 | a line that changes none of the seven members issues only the pending focus and the reload |
| Reconciler.ResentLineOnlyReloads | src/blocks.c:191-256 | sending the same page object again issues no member call, only the focus it requests again and the reload |
| Reconciler.ChangedPlaceholderIsDefined | src/blocks.c:227-234 | a changed placeholder or input is always defined, so reading its text is safe |
| Reconciler.AsWrittenAgreesWhenDefined | src/blocks.c:223-241 | the as-written overlay and prompt segments dereference NULL exactly when a defined member changes to undefined, and agree with the corrected segments otherwise |
| Reconciler.OverlayNullIsDereferenced | src/blocks.c:223-225 | `{"overlay": null}` after a shown overlay reaches the null dereference as written; the corrected segment hides the overlay |
| Reconciler.PromptNullIsDereferenced | src/blocks.c:236-241 | `{"prompt": null}` after a set prompt reaches the null dereference as written; the corrected segment shows no prompt |
| Reconciler.OverlayCallsAsWritten | src/blocks.c:223-225 | the overlay segment as written fails, reading NULL, exactly when a defined overlay becomes undefined |
| Reconciler.PromptCallsAsWritten | src/blocks.c:236-241 | the prompt segment as written fails, reading NULL, exactly when a defined prompt becomes undefined |
| Reconciler.ReconcileIconAndTokens | src/blocks.c:203-221 | pushes the icon and the case sensitivity as `IconAndTokenCalls` says, and rebuilds the tokens as `TokensAfter` says |
| Reconciler.ReconcileTexts | src/blocks.c:223-234 | appends the overlay, placeholder and input calls for what changed (corrected behaviour, see Findings) |
| Reconciler.ReconcilePromptAndFocus | src/blocks.c:236-256 | replaces a changed prompt as the display name, pushes a pending focus and reloads (corrected behaviour, see Findings) |
| Reconciler.Reconcile | src/blocks.c:193-256 | issues `ReconcileActions` for the old and new members, updates tokens and display name, and keeps the engine invariant (corrected behaviour, see Findings) |
| Reconciler.ApplyLineKeepsInput | src/blocks_mode_data.c:120-142 | applying a line, parsed or not, keeps the input defined and leaves the buffer and active line alone |
| Reconciler.ApplyPublished | src/blocks.c:176-256 | handling one line keeps the input defined, leaves the framer's state alone, and only appends to the renderer's calls (corrected behaviour, see Findings) |
| Reconciler.ApplyPublishedReloadsOnce | src/blocks.c:255-256 | handling one line adds exactly one reload to the renderer's calls |
| Reconciler.Run | src/blocks.c:169-260 | folding the handled lines over the channel keeps the input defined and only appends to the renderer's calls (corrected behaviour, see Findings) |
| Reconciler.RunDrains | src/blocks.c:173 | the fold leaves in the buffer what draining the channel leaves, and adds one reload per line the channel holds |
| Reconciler.RunWithoutNewline | src/blocks.c:152-165 | text without a terminator is only appended to the buffer: no member changes and the renderer receives no call |
| Reconciler.RunAppliesFirstLineFirst | src/blocks.c:169-260 | the first terminated line, the buffered prefix included, is made the active line and handled before the rest of the channel |
| Reconciler.RunSkipsKeepAlive | src/blocks.c:155-161 | with an empty buffer a lone terminator changes nothing and issues no call (corrected behaviour, see Findings) |
| Reconciler.ApplyActiveLine | src/blocks.c:191 | the data becomes the active line applied by the decoder; the tokens and the write channel are untouched and the input stays defined |
| Reconciler.HandleLine | src/blocks.c:176-256 | one loop body: data, prompt and renderer calls become exactly `ApplyPublished` of the old ones, and the engine invariant is kept (corrected behaviour, see Findings) |
| Reconciler.FrameNextLine | src/blocks.c:173 | one framer attempt inside the loop: what remains of `Run` after it is the handling of the published line and the rest, or nothing once the channel is read to its end |
| Reconciler.HandleThenFrame | src/blocks.c:173-257 | one pass of the loop: handles the published line and frames the next, advancing `Run` by one line and reading at least one character |
| Reconciler.OnNewInput | src/blocks.c:169-260 | the final data, prompt and renderer calls are exactly `Run` over the channel's whole content. The channel is read to its end, the buffer keeps the unterminated rest, there is one reload per line, and the engine invariant is kept (corrected behaviour, see Findings) |
| Events.LabelsIdentifyEvents | src/blocks.c:66-79 | the labels tell the events apart, are non-empty and contain no newline and no brace |
| Events.ReplaceAll | src/blocks.c:107-111 | the substitution the template uses; replacing a placeholder by itself leaves the text unchanged. `ReplaceAllWithoutOccurrence`, `ReplaceAllWhole` and `ReplaceAllKeepsSingleLine` state the rest |
| Events.ReplaceAllWithoutOccurrence | src/blocks.c:108-112 | a substitution leaves text without the placeholder unchanged |
| Events.ReplaceAllWhole | src/blocks.c:108 | a placeholder that is the whole text is replaced by the value |
| Events.ReplaceAllKeepsSingleLine | src/blocks.c:108-112 | a substitution brings in no newline that neither the text nor the value holds |
| Events.EventIsOneLine | src/blocks.c:107-116 | with no newline in the template, the values or their escaped forms, the text written ends in its only '\n' |
| Events.OpeningFreeHasNoPlaceholder | src/blocks.c:108-112 | text without two consecutive opening braces contains no placeholder |
| Events.SubstitutionsKeepOpeningFree | src/blocks.c:108-112 | the five substitutions leave text without placeholders unchanged |
| Events.FixedTemplateIsVerbatim | src/blocks.c:107-116 | a template without placeholders is sent verbatim, with one terminator, whatever the event |
| Events.EventOnlyTemplate | src/blocks.c:108-112 | the template `{{event}}` sends the bare label |
| Events.FormatEvent | src/blocks.c:106-111 | the template with `{{event}}`, `{{value}}`, `{{data}}`, `{{value_escaped}}` and `{{data_escaped}}` substituted in that order; `FixedTemplateIsVerbatim` and `EventOnlyTemplate` state what it gives |
| Events.EventLine | src/blocks.c:106-114 | what one event writes always ends in a terminator; `EventIsOneLine` shows it is the only one when no input holds a newline |
| Events.WriteToChannel | src/blocks.c:101-119 | a no-op without a write channel; otherwise the template is filled in placeholder order and written, followed by a single '\n' |
| Events.NatToString | src/blocks.c:393 | the decimal text of a key code is non-empty and all digits |
| Events.NatToStringRoundTrip | src/blocks.c:393 | reading the digits back gives the number written |
| Events.KeyNumber | src/blocks.c:393 | the custom key code lies in 1..20 and is the lower bits plus one, modulo 20 |
| Events.SelectionData | src/blocks.c:394 | "1" exactly when a line is selected, "" exactly when none is |
| Events.Result | src/blocks.c:373-416 | NEXT wins, then PREVIOUS; the mode exits exactly when no flag navigates or acts; a CANCEL event always comes with an exit |
| Events.ResultAgreesWhenLineRead | src/blocks.c:383-404 | the as-written dispatch reads the uninitialised line exactly for OK or DELETE with no line selected, and agrees with `Result` everywhere else |
| Events.AcceptOnEmptyListReadsUninitialisedLine | src/blocks.c:383-398 | MENU_OK on an empty list reaches the uninitialised read; the corrected dispatch reloads |
| Events.ResultAsWritten | src/blocks.c:373-416 | the dispatch as written reads an unassigned line only for OK or DELETE with no line selected; `ResultAgreesWhenLineRead` shows that it agrees with `Result` everywhere else |
| Events.CustomKeyEvent | src/blocks.c:391-394 | a custom key sends CUSTOM_KEY with a number 1..20 as decimal text and whether a line is selected, then reloads |
| Events.NonselectableSendsNothing | src/blocks.c:397-404 | OK or DELETE on a line that cannot be selected sends nothing and reloads |
| Events.AcceptSendsLine | src/blocks.c:397-401 | OK on a selectable line sends its text and data, as the ALT event under the custom action |
| Events.CancelExits | src/blocks.c:409-411 | CANCEL, with any flags that neither navigate nor act, sends CANCEL and exits the mode |
| Events.BlocksModeResult | src/blocks.c:373-416 | returns the next mode `Result` chooses and writes that outcome's event line, if any (corrected behaviour, see Findings) |
| Events.MatchedText | src/blocks.c:504 | the filter when the script set one, the input otherwise |
| Events.InputChangeEvent | src/blocks.c:500-503 | INPUT_CHANGE with the typed text exactly when it differs from the stored input |
| Events.InputChangeIsSentOnce | src/blocks.c:500-503 | handing over the stored text again sends nothing |
| Events.PreprocessInput | src/blocks.c:495-505 | stores the typed text, writes INPUT_CHANGE exactly when it changed, and returns the filter or the input |
| ModeCallbacks.TokenMatch | src/blocks.c:463-486 | an index with no line never matches; a line outside filtering always matches; with no tokens, a defined-empty filter matches everything; otherwise the matcher gets the stripped text, which may be NULL |
| ModeCallbacks.MatchedTextOfLine | src/blocks.c:476-485 | metatext is preferred and always parsed as markup; text is parsed only when the line is markup; what the matcher receives is the stripped text, or NULL when Pango rejects the markup |
| ModeCallbacks.ScriptFilterOverridesTyped | src/blocks.c:469-475 | once the script's filter has produced a token set, or is "", the typed text has no effect on matching |
| ModeCallbacks.BlankFilterUsesTypedTokens | src/blocks.c:469-480 | a script filter of blanks only yields no token set, so a plain line is matched against the typed tokens |
| ModeCallbacks.RejectedMarkupMatchedAsNull | src/blocks.c:476-485 | metatext that Pango rejects reaches the matcher as NULL, whatever the line's markup flag |
| ModeCallbacks.TypedTokensWithoutFilter | src/blocks.c:469-480 | without a script filter, plain text is matched against the typed tokens |
| ModeCallbacks.LineStateBits | src/blocks.c:456-459 | bit 1 exactly when urgent, 2 exactly when highlighted, 8 exactly when markup, no other bit |
| ModeCallbacks.DisplayValue | src/blocks.c:447-461 | bit 16 exactly when there is no line; bits 1, 2 and 8 follow the line's flags; no other bit is set; text exactly when asked for: the line's text, or "" without a line |
| ModeCallbacks.UintPred | src/blocks.c:90-92 | unsigned subtraction of one: n - 1, wrapping from 0 to UINT32_MAX |
| ModeCallbacks.CurrentPosition | src/blocks.c:86-94 | an unsigned 32-bit value: the next position minus one for an ordinary position; for 0 or a position within 10 of UINT32_MAX, the page's line count minus one, wrapping to UINT32_MAX |
| ModeCallbacks.CurrentPositionInRange | src/blocks.c:86-94 | an ordinary next position within the page names the line before it; 0 or a position within 10 of UINT32_MAX names the last line of a non-empty page |
| ModeCallbacks.CurrentPositionOnEmptyPageWraps | src/blocks.c:89-90 | on an empty page, a next position of 0 or within 10 of UINT32_MAX gives UINT32_MAX, not a line index |

## Left out

- Spawning the script, `fcntl`, `g_io_add_watch`, the child watch, `kill`, `exit`, `blocks_mode_init` (and its INIT event), `blocks_mode_destroy` (and its EXIT event), `page_data_destroy` and `blocks_mode_private_data_update_destroy`: process and event-loop plumbing. Reading is a sequence of characters; writing is appended text.
- Memory management (`g_free`, `g_string_free`, the freeing loop of `page_data_clear_lines`, the copies of the old members in `on_new_input`): the model has values, not allocations.
- Read errors and `GError`: a channel either yields its next character or has nothing left to read.
- Icon fetching (`blocks_mode_get_icon`) and the idle retry after `rofi_view_set_icon` fails (`on_icon_retry`): asynchronous scheduling around rofi's icon cache. `SetIcon` records the call only.
- `blocks_mode_selection_changed`, `blocks_mode_get_message`, `blocks_mode_get_num_entries`, and the `page_data_set_message`, `page_data_set_overlay` and `page_data_set_filter` wrappers: host glue that only forwards to members already modelled.
- JSON parsing: a parameter `parse` that yields a JSON value or fails. The model requires a parsed line to be an object whose `lines`, when present, is an array (`IsPage`). The code reads both without checking.
- The `_or_else` accessors are not defined in the source. The string and boolean ones are declared in `src/json_glib_extensions.h`; `json_object_get_int_member_or_else` (used at `src/blocks_mode_data.c:59`) is not declared there either. They are modelled as "a member present with the expected type gives its value, anything else the default".
- `str_replace`, `str_replace_in` and `str_replace_in_escaped` are not part of this model. Substitution is plain left-to-right replace-all. JSON string escaping (section 7 of RFC 8259) is a parameter `escape`.
- `helper_tokenize`, `helper_token_match` and `pango_parse_markup` are rofi and Pango code. A token set is identified by its filter and case flag. The tokenizer is modelled with rofi's default `tokenize` setting, which splits at blanks, so a filter of blanks only gives no token set. With that setting off, rofi builds one token even from blanks; that configuration is not modelled. Matching and markup stripping are parameters. A failed Pango parse is `None`, which is the NULL the matcher then receives.
- rofi's numeric menu flag constants: a menu return value is a set of flags plus its lower bits.
- The page's `trigger` member: nothing in the core sets it, and the model only carries it along.
- The write channel's flush: one event is appended to the written text at once.
- LineFramer.Scan, LineFramer.NextLine, Reconciler.ReconcileTexts, Reconciler.ReconcilePromptAndFocus, Reconciler.Reconcile, Reconciler.ApplyPublished, Reconciler.Run, Reconciler.RunSkipsKeepAlive, Reconciler.HandleLine, Reconciler.OnNewInput, Events.BlocksModeResult: these follow the corrected behaviour from "## Findings", not the code as written, in three places. A lone '\n' is skipped rather than re-applying the previous line. An overlay or prompt that changes to NULL is hidden rather than dereferenced. OK or DELETE with no selected line reloads rather than reading an uninitialised line. The as-written behaviour is modelled by the members in the Findings table.
- Copies through C strings (`g_string_new(x->str)`, `g_string_assign`, `g_strdup`) stop at an embedded NUL, so a JSON string holding `"\u0000"` is cut short there. The model's strings are copied whole.
- `page_data_is_overlay_empty` and `page_data_get_overlay_or_empty_string` (`src/page_data.c:83-89`): nothing in the core calls them, and they mirror the message getters, which are modelled.

## Findings

| source | as written | input that shows it | evidently intended | confidence | as-written member | corrected member |
|---|---|---|---|---|---|---|
| src/blocks.c:155-161 | a line made of the terminator alone empties the buffer and reports a line without replacing the active line, so the caller applies the previous line again | the script sends `{"input":"a"}\n`, the user types, then the script sends a lone `\n`: the input is set back to "a" | a keep-alive line is skipped and nothing is re-applied | not executed | LineFramer.KeepAliveReappliesPreviousLine | LineFramer.Scan |
| src/blocks.c:223-225 | `new_overlay->len` is read whenever the overlay changed, also when it changed to NULL | `{"overlay":"x"}` then `{"overlay":null}` | hide the overlay | not executed | Reconciler.OverlayNullIsDereferenced | Reconciler.OverlayCalls |
| src/blocks.c:236-241 | `new_prompt->str` is read whenever the prompt changed, also when it changed to NULL | `{"prompt":"p"}` then `{"prompt":null}` | show no prompt | not executed | Reconciler.PromptNullIsDereferenced | Reconciler.PromptCalls |
| src/blocks.c:383-404 | `line` is assigned only for a selection in range, but MENU_OK and MENU_ENTRY_DELETE read `line->nonselectable` regardless | MENU_OK on an empty list | send nothing and reload, as for a line that cannot be selected | not executed | Events.AcceptOnEmptyListReadsUninitialisedLine | Events.Result |
