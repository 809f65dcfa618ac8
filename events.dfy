/**
 * The event side of the protocol (src/blocks.c): the events the plugin sends
 * back to the script, the template substitution that renders one event as
 * one line on the write channel, the dispatch from the host's menu return
 * flags to an event in `blocks_mode_result`, and `preprocess_input`.
 */
module Events {
  import opened Optional
  import opened PageData
  import opened BlocksModeData
  import opened Rofi

  /** The events, in the order of `event_enum_labels`. */
  datatype Event =
    | Init | InputChange | ActiveEntry | AcceptEntry | AcceptEntryAlt | AcceptInput
    | AcceptInputAlt | Complete | DeleteEntry | CustomKey | Cancel | Exit

  /** The label substituted for `{{event}}`. */
  function Label(e: Event): string {
    match e
    case Init => "INIT"
    case InputChange => "INPUT_CHANGE"
    case ActiveEntry => "ACTIVE_ENTRY"
    case AcceptEntry => "ACCEPT_ENTRY"
    case AcceptEntryAlt => "ACCEPT_ENTRY_ALT"
    case AcceptInput => "ACCEPT_INPUT"
    case AcceptInputAlt => "ACCEPT_INPUT_ALT"
    case Complete => "COMPLETE"
    case DeleteEntry => "DELETE_ENTRY"
    case CustomKey => "CUSTOM_KEY"
    case Cancel => "CANCEL"
    case Exit => "EXIT"
  }

  /** The script can tell every event apart by its label, and no label spans lines. */
  lemma LabelsIdentifyEvents(a: Event, b: Event)
    ensures Label(a) == Label(b) ==> a == b
    ensures |Label(a)| > 0 && '\n' !in Label(a) && '{' !in Label(a)
  {
  }

  /** `pat` occurs in `s` starting at position `i`. */
  predicate OccursAt(s: string, pat: string, i: nat) {
    i + |pat| <= |s| && s[i..i + |pat|] == pat
  }

  /**
   * Plain replace-all: every occurrence of `pat`, scanning left to right and
   * not overlapping, is replaced by `rep`; the replacement text is not
   * scanned again.
   */
  function ReplaceAll(s: string, pat: string, rep: string): (r: string)
    requires |pat| > 0
    ensures rep == pat ==> r == s
    decreases |s|
  {
    if |s| < |pat| then s
    else if s[..|pat|] == pat then rep + ReplaceAll(s[|pat|..], pat, rep)
    else [s[0]] + ReplaceAll(s[1..], pat, rep)
  }

  /** Without an occurrence of the placeholder the text is left as it is. */
  lemma {:induction false} ReplaceAllWithoutOccurrence(s: string, pat: string, rep: string)
    requires |pat| > 0
    requires forall i: nat :: !OccursAt(s, pat, i)
    ensures ReplaceAll(s, pat, rep) == s
    decreases |s|
  {
    if |s| >= |pat| {
      assert !OccursAt(s, pat, 0);
      forall i: nat ensures !OccursAt(s[1..], pat, i) {
        assert !OccursAt(s, pat, i + 1);
        if i + |pat| <= |s[1..]| {
          assert s[1..][i..i + |pat|] == s[i + 1..i + 1 + |pat|];
        }
      }
      ReplaceAllWithoutOccurrence(s[1..], pat, rep);
    }
  }

  /** A placeholder that makes up the whole text is replaced by the value. */
  lemma ReplaceAllWhole(pat: string, rep: string)
    requires |pat| > 0
    ensures ReplaceAll(pat, pat, rep) == rep
  {
    assert pat[..|pat|] == pat;
    assert pat[|pat|..] == [];
    assert rep + [] == rep;
  }

  /** Substitution brings in no newline that neither the text nor the value holds. */
  lemma {:induction false} ReplaceAllKeepsSingleLine(s: string, pat: string, rep: string)
    requires |pat| > 0 && '\n' !in s && '\n' !in rep
    ensures '\n' !in ReplaceAll(s, pat, rep)
    decreases |s|
  {
    if |s| >= |pat| {
      if s[..|pat|] == pat {
        assert forall c :: c in s[|pat|..] ==> c in s;
        ReplaceAllKeepsSingleLine(s[|pat|..], pat, rep);
      } else {
        assert forall c :: c in s[1..] ==> c in s;
        ReplaceAllKeepsSingleLine(s[1..], pat, rep);
      }
    }
  }

  /**
   * The outbound template substitution: `{{event}}`, `{{value}}`, `{{data}}`,
   * `{{value_escaped}}` and `{{data_escaped}}`, in that order, each on the
   * result of the previous one. `escape` is the JSON string escaping of
   * section 7 of RFC 8259.
   */
  function FormatEvent(format: string, e: Event, value: string, data: string, escape: string -> string): string {
    var s1 := ReplaceAll(format, "{{event}}", Label(e));
    var s2 := ReplaceAll(s1, "{{value}}", value);
    var s3 := ReplaceAll(s2, "{{data}}", data);
    var s4 := ReplaceAll(s3, "{{value_escaped}}", escape(value));
    ReplaceAll(s4, "{{data_escaped}}", escape(data))
  }

  /** What the write channel receives for one event: the formatted event and a single terminator. */
  function EventLine(format: string, e: Event, value: string, data: string, escape: string -> string): (r: string)
    ensures |r| > 0 && r[|r| - 1] == '\n'
  {
    FormatEvent(format, e, value, data, escape) + "\n"
  }

  /**
   * One event is one protocol line: when the template, the values and their
   * escaped forms hold no newline, the text written ends in the only '\n' it
   * holds.
   */
  lemma EventIsOneLine(format: string, e: Event, value: string, data: string, escape: string -> string)
    requires '\n' !in format && '\n' !in value && '\n' !in data
    requires '\n' !in escape(value) && '\n' !in escape(data)
    ensures var line := EventLine(format, e, value, data, escape);
      |line| > 0 && line[|line| - 1] == '\n' && '\n' !in line[..|line| - 1]
  {
    LabelsIdentifyEvents(e, e);
    var s1 := ReplaceAll(format, "{{event}}", Label(e));
    ReplaceAllKeepsSingleLine(format, "{{event}}", Label(e));
    var s2 := ReplaceAll(s1, "{{value}}", value);
    ReplaceAllKeepsSingleLine(s1, "{{value}}", value);
    var s3 := ReplaceAll(s2, "{{data}}", data);
    ReplaceAllKeepsSingleLine(s2, "{{data}}", data);
    var s4 := ReplaceAll(s3, "{{value_escaped}}", escape(value));
    ReplaceAllKeepsSingleLine(s3, "{{value_escaped}}", escape(value));
    ReplaceAllKeepsSingleLine(s4, "{{data_escaped}}", escape(data));
    var line := EventLine(format, e, value, data, escape);
    assert line[..|line| - 1] == FormatEvent(format, e, value, data, escape);
  }

  /** `s` holds no two consecutive opening braces, so no placeholder can start in it. */
  predicate HasNoOpening(s: string) {
    forall i :: 0 <= i < |s| - 1 ==> s[i] != '{' || s[i + 1] != '{'
  }

  lemma OpeningFreeHasNoPlaceholder(s: string, pat: string)
    requires |pat| >= 2 && pat[0] == '{' && pat[1] == '{' && HasNoOpening(s)
    ensures forall i: nat :: !OccursAt(s, pat, i)
  {
    forall i: nat ensures !OccursAt(s, pat, i) {
      if i + |pat| <= |s| {
        var w := s[i..i + |pat|];
        assert w[0] == s[i] && w[1] == s[i + 1];
        assert w[0] != pat[0] || w[1] != pat[1];
      }
    }
  }

  /** The five substitutions leave a text without placeholders as it is. */
  lemma {:induction false} SubstitutionsKeepOpeningFree(s: string, e: Event, value: string, data: string, escape: string -> string)
    requires HasNoOpening(s)
    ensures FormatEvent(s, e, value, data, escape) == s
  {
    OpeningFreeHasNoPlaceholder(s, "{{event}}");
    ReplaceAllWithoutOccurrence(s, "{{event}}", Label(e));
    OpeningFreeHasNoPlaceholder(s, "{{value}}");
    ReplaceAllWithoutOccurrence(s, "{{value}}", value);
    OpeningFreeHasNoPlaceholder(s, "{{data}}");
    ReplaceAllWithoutOccurrence(s, "{{data}}", data);
    OpeningFreeHasNoPlaceholder(s, "{{value_escaped}}");
    ReplaceAllWithoutOccurrence(s, "{{value_escaped}}", escape(value));
    OpeningFreeHasNoPlaceholder(s, "{{data_escaped}}");
    ReplaceAllWithoutOccurrence(s, "{{data_escaped}}", escape(data));
  }

  /** A template without placeholders is sent verbatim, whatever the event. */
  lemma FixedTemplateIsVerbatim(format: string, e: Event, value: string, data: string, escape: string -> string)
    requires HasNoOpening(format)
    ensures EventLine(format, e, value, data, escape) == format + "\n"
  {
    SubstitutionsKeepOpeningFree(format, e, value, data, escape);
  }

  /** The template made of the event placeholder alone sends the bare label. */
  lemma EventOnlyTemplate(e: Event, value: string, data: string, escape: string -> string)
    ensures FormatEvent("{{event}}", e, value, data, escape) == Label(e)
  {
    var t := "{{event}}";
    ReplaceAllWhole(t, Label(e));
    LabelsIdentifyEvents(e, e);
    var l := Label(e);
    assert HasNoOpening(l) by {
      forall i | 0 <= i < |l| - 1 ensures l[i] != '{' {
        assert l[i] in l;
      }
    }
    OpeningFreeHasNoPlaceholder(l, "{{value}}");
    ReplaceAllWithoutOccurrence(l, "{{value}}", value);
    OpeningFreeHasNoPlaceholder(l, "{{data}}");
    ReplaceAllWithoutOccurrence(l, "{{data}}", data);
    OpeningFreeHasNoPlaceholder(l, "{{value_escaped}}");
    ReplaceAllWithoutOccurrence(l, "{{value_escaped}}", escape(value));
    OpeningFreeHasNoPlaceholder(l, "{{data_escaped}}");
    ReplaceAllWithoutOccurrence(l, "{{data_escaped}}", escape(data));
  }

  /**
   * `blocks_mode_private_data_write_to_channel`: nothing happens once the
   * write channel is gone (the script exited or failed to start); otherwise
   * the formatted event and a terminator are appended to it.
   */
  method WriteToChannel(data: ModeData, e: Event, value: string, dat: string, escape: string -> string)
    requires data.eventFormat.Some?
    modifies {data.writeChannel}`written
    ensures data.writeChannel != null ==>
      data.writeChannel.written == old(data.writeChannel.written)
        + EventLine(data.eventFormat.value, e, value, dat, escape)
  {
    var channel := data.writeChannel;
    if channel == null {
      return;
    }
    var formatResult := FormatEvent(data.eventFormat.value, e, value, dat, escape);
    channel.written := channel.written + formatResult;
    channel.written := channel.written + "\n";
  }

  /** The bits of the host's menu return value that `blocks_mode_result` tests. */
  datatype MenuFlag =
    | MenuOk | MenuCancel | MenuNext | MenuCustomInput | MenuEntryDelete
    | MenuCustomCommand | MenuComplete | MenuPrevious | MenuCustomAction

  /** A menu return value: the flags it carries and its lower bits (`mretv & MENU_LOWER_MASK`). */
  datatype MenuReturn = MenuReturn(flags: set<MenuFlag>, lower: nat)

  /** The flags that send the host to another dialog before anything else is looked at. */
  predicate Navigates(flags: set<MenuFlag>) {
    MenuNext in flags || MenuPrevious in flags
  }

  /** The flags that make `blocks_mode_result` act and keep the dialog open. */
  predicate Acts(flags: set<MenuFlag>) {
    MenuCustomCommand in flags || MenuComplete in flags || MenuOk in flags
    || MenuEntryDelete in flags || MenuCustomInput in flags
  }

  /** What the host is told to do next. */
  datatype ModeMode = ModeExit | NextDialog | PreviousDialog | ReloadDialog

  /** One event sent to the script, with its value and data. */
  datatype Emission = Emission(event: Event, value: string, data: string)

  /** The outcome of one `blocks_mode_result` call: the event sent, if any, and the next mode. */
  datatype Outcome = Outcome(emitted: Option<Emission>, next: ModeMode)

  /** The decimal digits of `n`, as `snprintf("%d")` writes them. */
  function NatToString(n: nat): (r: string)
    ensures |r| > 0 && forall i :: 0 <= i < |r| ==> '0' <= r[i] <= '9'
    decreases n
  {
    if n < 10 then [Digit(n)] else NatToString(n / 10) + [Digit(n % 10)]
  }

  function Digit(d: nat): (c: char)
    requires d < 10
    ensures '0' <= c <= '9'
  {
    ('0' as int + d) as char
  }

  /** The number a string of decimal digits denotes: the partner of `NatToString`. */
  function DigitsValue(s: string): nat
    requires forall i :: 0 <= i < |s| ==> '0' <= s[i] <= '9'
    decreases |s|
  {
    if s == [] then 0
    else 10 * DigitsValue(s[..|s| - 1]) + (s[|s| - 1] as int - '0' as int)
  }

  /** Reading back the digits gives the number written. */
  lemma {:induction false} NatToStringRoundTrip(n: nat)
    ensures DigitsValue(NatToString(n)) == n
    decreases n
  {
    var r := NatToString(n);
    if n < 10 {
      assert r[..0] == [];
    } else {
      NatToStringRoundTrip(n / 10);
      assert r[..|r| - 1] == NatToString(n / 10);
    }
  }

  /** The custom key number: `(mretv & MENU_LOWER_MASK) % 20 + 1`, always one of 1 to 20. */
  function KeyNumber(lower: nat): (r: nat)
    ensures 1 <= r <= 20
    ensures r % 20 == (lower + 1) % 20
  {
    lower % 20 + 1
  }

  /** The data sent with a custom key or typed input: "1" when a line is selected, "" otherwise. */
  function SelectionData(selected: nat, lines: seq<LineData>): (r: string)
    ensures r == "1" <==> selected < |lines|
    ensures r == "" <==> selected >= |lines|
  {
    if selected < |lines| then "1" else ""
  }

  /**
   * `blocks_mode_result` as written. `line` is only assigned when the
   * selection is in range, but MENU_OK and MENU_ENTRY_DELETE read it
   * regardless; `None` stands for that read of an uninitialised pointer.
   */
  function ResultAsWritten(ret: MenuReturn, input: string, selected: nat, lines: seq<LineData>): (r: Option<Outcome>)
    ensures r.None? ==> (MenuOk in ret.flags || MenuEntryDelete in ret.flags) && selected >= |lines|
  {
    var flags := ret.flags;
    if MenuNext in flags then Some(Outcome(None, NextDialog))
    else if MenuPrevious in flags then Some(Outcome(None, PreviousDialog))
    else if MenuCustomCommand in flags then
      Some(Outcome(Some(Emission(CustomKey, NatToString(KeyNumber(ret.lower)), SelectionData(selected, lines))), ReloadDialog))
    else if MenuComplete in flags then Some(Outcome(Some(Emission(Complete, "", "")), ReloadDialog))
    else if MenuOk in flags || MenuEntryDelete in flags then
      if selected >= |lines| then None
      else if lines[selected].nonselectable then Some(Outcome(None, ReloadDialog))
      else if MenuOk in flags then
        Some(Outcome(Some(Emission(if MenuCustomAction in flags then AcceptEntryAlt else AcceptEntry,
                                   lines[selected].text, lines[selected].data)), ReloadDialog))
      else Some(Outcome(Some(Emission(DeleteEntry, lines[selected].text, lines[selected].data)), ReloadDialog))
    else if MenuCustomInput in flags then
      Some(Outcome(Some(Emission(if MenuCustomAction in flags then AcceptInputAlt else AcceptInput,
                                 input, SelectionData(selected, lines))), ReloadDialog))
    else if MenuCancel in flags then Some(Outcome(Some(Emission(Cancel, "", "")), ModeExit))
    else Some(Outcome(None, ModeExit))
  }

  /**
   * `blocks_mode_result` with the missing case handled: accepting or
   * deleting when no line is selected sends nothing and reloads, as for a
   * line that cannot be selected.
   */
  function Result(ret: MenuReturn, input: string, selected: nat, lines: seq<LineData>): (r: Outcome)
    ensures MenuNext in ret.flags ==> r == Outcome(None, NextDialog)
    ensures MenuNext !in ret.flags && MenuPrevious in ret.flags ==> r == Outcome(None, PreviousDialog)
    ensures r.next == ModeExit <==> !Navigates(ret.flags) && !Acts(ret.flags)
    ensures r.emitted.Some? && r.emitted.value.event == Cancel ==> r.next == ModeExit
  {
    var flags := ret.flags;
    if MenuNext in flags then Outcome(None, NextDialog)
    else if MenuPrevious in flags then Outcome(None, PreviousDialog)
    else if MenuCustomCommand in flags then
      Outcome(Some(Emission(CustomKey, NatToString(KeyNumber(ret.lower)), SelectionData(selected, lines))), ReloadDialog)
    else if MenuComplete in flags then Outcome(Some(Emission(Complete, "", "")), ReloadDialog)
    else if MenuOk in flags || MenuEntryDelete in flags then
      if selected >= |lines| || lines[selected].nonselectable then Outcome(None, ReloadDialog)
      else if MenuOk in flags then
        Outcome(Some(Emission(if MenuCustomAction in flags then AcceptEntryAlt else AcceptEntry,
                              lines[selected].text, lines[selected].data)), ReloadDialog)
      else Outcome(Some(Emission(DeleteEntry, lines[selected].text, lines[selected].data)), ReloadDialog)
    else if MenuCustomInput in flags then
      Outcome(Some(Emission(if MenuCustomAction in flags then AcceptInputAlt else AcceptInput,
                            input, SelectionData(selected, lines))), ReloadDialog)
    else if MenuCancel in flags then Outcome(Some(Emission(Cancel, "", "")), ModeExit)
    else Outcome(None, ModeExit)
  }

  /** Where the as-written dispatch reads no uninitialised line it agrees with the corrected one, and it does so exactly outside that case. */
  lemma ResultAgreesWhenLineRead(ret: MenuReturn, input: string, selected: nat, lines: seq<LineData>)
    ensures ResultAsWritten(ret, input, selected, lines).None? <==>
      && !Navigates(ret.flags) && MenuCustomCommand !in ret.flags && MenuComplete !in ret.flags
      && (MenuOk in ret.flags || MenuEntryDelete in ret.flags)
      && selected >= |lines|
    ensures ResultAsWritten(ret, input, selected, lines).Some? ==>
      ResultAsWritten(ret, input, selected, lines).value == Result(ret, input, selected, lines)
  {
  }

  /** Accepting with nothing selected (an empty list) reaches the uninitialised read; the corrected dispatch just reloads. */
  lemma AcceptOnEmptyListReadsUninitialisedLine(input: string)
    ensures ResultAsWritten(MenuReturn({MenuOk}, 0), input, 0, []).None?
    ensures Result(MenuReturn({MenuOk}, 0), input, 0, []) == Outcome(None, ReloadDialog)
  {
  }

  /** A custom key sends its number, 1 to 20, as decimal text, and whether a line is selected. */
  lemma CustomKeyEvent(ret: MenuReturn, input: string, selected: nat, lines: seq<LineData>)
    requires MenuCustomCommand in ret.flags && !Navigates(ret.flags)
    ensures var r := Result(ret, input, selected, lines);
      && r.next == ReloadDialog && r.emitted.Some? && r.emitted.value.event == CustomKey
      && 1 <= DigitsValue(r.emitted.value.value) <= 20
      && DigitsValue(r.emitted.value.value) == ret.lower % 20 + 1
      && (r.emitted.value.data == "1" <==> selected < |lines|)
  {
    NatToStringRoundTrip(KeyNumber(ret.lower));
  }

  /** Accepting or deleting a line that cannot be selected sends nothing and reloads. */
  lemma NonselectableSendsNothing(ret: MenuReturn, input: string, selected: nat, lines: seq<LineData>)
    requires !Navigates(ret.flags) && MenuCustomCommand !in ret.flags && MenuComplete !in ret.flags
    requires MenuOk in ret.flags || MenuEntryDelete in ret.flags
    requires selected < |lines| && lines[selected].nonselectable
    ensures Result(ret, input, selected, lines) == Outcome(None, ReloadDialog)
  {
  }

  /** Accepting a selectable line sends its text and data; the custom action picks the alternative event. */
  lemma AcceptSendsLine(ret: MenuReturn, input: string, selected: nat, lines: seq<LineData>)
    requires !Navigates(ret.flags) && MenuCustomCommand !in ret.flags && MenuComplete !in ret.flags
    requires MenuOk in ret.flags
    requires selected < |lines| && !lines[selected].nonselectable
    ensures Result(ret, input, selected, lines) == Outcome(
      Some(Emission(if MenuCustomAction in ret.flags then AcceptEntryAlt else AcceptEntry,
                    lines[selected].text, lines[selected].data)), ReloadDialog)
  {
  }

  /** Cancelling, with no flag that navigates or acts, sends CANCEL and ends the mode. */
  lemma CancelExits(ret: MenuReturn, input: string, selected: nat, lines: seq<LineData>)
    requires MenuCancel in ret.flags && !Navigates(ret.flags) && !Acts(ret.flags)
    ensures Result(ret, input, selected, lines) == Outcome(Some(Emission(Cancel, "", "")), ModeExit)
  {
  }

  /** What `blocks_mode_result` writes to an open channel: the event line when an event is sent, nothing otherwise. */
  function ResultOutput(format: string, o: Outcome, escape: string -> string): string {
    if o.emitted.Some? then
      EventLine(format, o.emitted.value.event, o.emitted.value.value, o.emitted.value.data, escape)
    else ""
  }

  /**
   * `blocks_mode_result`: choose the event from the menu return value, send
   * it, and tell the host what to do next.
   */
  method BlocksModeResult(sw: Mode, ret: MenuReturn, input: string, selected: nat, escape: string -> string)
    returns (next: ModeMode)
    requires sw.data.eventFormat.Some?
    modifies {sw.data.writeChannel}`written
    ensures var o := Result(ret, input, selected, sw.data.page.lines);
      && next == o.next
      && (sw.data.writeChannel != null ==>
            sw.data.writeChannel.written == old(sw.data.writeChannel.written)
              + ResultOutput(sw.data.eventFormat.value, o, escape))
  {
    var data := sw.data;
    var lines := data.page.lines;
    var flags := ret.flags;
    if MenuNext in flags {
      return NextDialog;
    } else if MenuPrevious in flags {
      return PreviousDialog;
    }
    var inRange := selected < |lines|;
    next := ReloadDialog;
    if MenuCustomCommand in flags {
      var keycode := NatToString(ret.lower % 20 + 1);
      WriteToChannel(data, CustomKey, keycode, if inRange then "1" else "", escape);
    } else if MenuComplete in flags {
      WriteToChannel(data, Complete, "", "", escape);
    } else if MenuOk in flags {
      if !inRange || lines[selected].nonselectable {
        return ReloadDialog;
      }
      WriteToChannel(data, if MenuCustomAction in flags then AcceptEntryAlt else AcceptEntry,
                     lines[selected].text, lines[selected].data, escape);
    } else if MenuEntryDelete in flags {
      if !inRange || lines[selected].nonselectable {
        return ReloadDialog;
      }
      WriteToChannel(data, DeleteEntry, lines[selected].text, lines[selected].data, escape);
    } else if MenuCustomInput in flags {
      WriteToChannel(data, if MenuCustomAction in flags then AcceptInputAlt else AcceptInput,
                     input, if inRange then "1" else "", escape);
    } else if MenuCancel in flags {
      WriteToChannel(data, Cancel, "", "", escape);
      next := ModeExit;
    } else {
      next := ModeExit;
    }
  }

  /** The filter when the script set one, the input otherwise: the text the host matches lines against. */
  function MatchedText(page: PageValue): (r: string)
    requires page.input.Some?
    ensures page.filter.Some? ==> r == page.filter.value
    ensures page.filter.None? ==> r == page.input.value
  {
    if page.filter.None? then page.input.value else page.filter.value
  }

  /** The event `preprocess_input` sends: INPUT_CHANGE exactly when the typed text differs from the stored input. */
  function InputChangeEvent(stored: string, typed: string): (r: Option<Emission>)
    ensures r.Some? <==> stored != typed
    ensures r.Some? ==> r.value == Emission(InputChange, typed, "")
  {
    if stored != typed then Some(Emission(InputChange, typed, "")) else None
  }

  /** Handing the same text over again is quiet: once stored, it sends nothing. */
  lemma InputChangeIsSentOnce(stored: string, typed: string)
    ensures InputChangeEvent(typed, typed).None?
    ensures InputChangeEvent(stored, typed).Some? ==> InputChangeEvent(stored, typed).value.value == typed
  {
  }

  /**
   * `blocks_mode_preprocess_input`: store the typed text and report it when
   * it changed; return the text the host should match lines against.
   */
  method PreprocessInput(sw: Mode, typed: string, escape: string -> string) returns (matched: string)
    requires sw.data.Valid()
    modifies sw.data.page`input, {sw.data.writeChannel}`written
    ensures sw.data.Valid()
    ensures sw.data.page.Value() == old(sw.data.page.Value()).(input := Some(typed))
    ensures matched == MatchedText(sw.data.page.Value())
    ensures var e := InputChangeEvent(old(sw.data.page.input.value), typed);
      sw.data.writeChannel != null ==>
        sw.data.writeChannel.written == old(sw.data.writeChannel.written)
          + (if e.Some? then EventLine(sw.data.eventFormat.value, InputChange, typed, "", escape) else "")
  {
    var data := sw.data;
    var page := data.page;
    if page.input.value != typed {
      page.input := Some(typed);
      WriteToChannel(data, InputChange, typed, "", escape);
    }
    matched := if page.filter.None? then page.input.value else page.filter.value;
  }
}
