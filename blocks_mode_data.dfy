/**
 * The mode's private data and the partial-update decoder
 * (src/blocks_mode_data.c): one received line is parsed as a JSON object and
 * each recognised top-level key updates one member; a key that is absent
 * leaves its member alone.
 */
module BlocksModeData {
  import opened Optional
  import opened Json
  import opened PageData

  /** The outbound template `blocks_mode_private_data_new` installs. */
  const DefaultEventFormat: string :=
    "{\"event\":\"{{event}}\", \"value\":\"{{value_escaped}}\", \"data\":\"{{data_escaped}}\"}"

  /**
   * A token set built by the renderer's `helper_tokenize` from a filter and a
   * case-sensitivity flag. It is identified by what it was built from.
   */
  datatype Tokens = Tokens(pattern: string, caseSensitive: bool)

  /** A filter with no character other than the blank the tokenizer splits on. */
  predicate Blank(input: string)
  {
    forall i | 0 <= i < |input| :: input[i] == ' '
  }

  /**
   * `helper_tokenize` splits its input at blanks and gives NULL when no
   * token is left: for "" and for a filter made of blanks only.
   */
  function Tokenize(input: string, caseSensitive: bool): (r: Option<Tokens>)
    ensures r.None? <==> Blank(input)
    ensures input == "" ==> r.None?
    ensures r.Some? ==> r.value.pattern == input && r.value.caseSensitive == caseSensitive
  {
    if Blank(input) then None else Some(Tokens(input, caseSensitive))
  }

  /** A `GIOChannel`: the characters not yet read from it and the text written to it. */
  class IOChannel {
    var unread: string
    var written: string
  }

  /** A string member the decoder can set: one of the page's, or the private data's `event_format`. */
  datatype Target = OnPage(field: StringField) | EventFormat

  /** The abstract value of `BlocksModePrivateData`, less its channels and the parser's current root. */
  datatype DataValue = DataValue(
    page: PageValue,
    eventFormat: Option<string>,
    entryToFocus: int,
    tokens: Option<Tokens>,
    closeOnChildExit: bool,
    buffer: string,
    activeLine: string)
  {
    function Get(t: Target): Option<string> {
      match t
      case OnPage(f) => page.Get(f)
      case EventFormat => eventFormat
    }

    function With(t: Target, s: Option<string>): DataValue {
      match t
      case OnPage(f) => this.(page := page.With(f, s))
      case EventFormat => this.(eventFormat := s)
    }
  }

  /** The key of the root object that sets each page member. */
  function FieldKey(f: StringField): string {
    match f
    case Message => "message"
    case Overlay => "overlay"
    case Prompt => "prompt"
    case Placeholder => "placeholder"
    case Filter => "filter"
    case Icon => "icon"
    case Input => "input"
  }

  /** Whether JSON null clears the member to undefined (TRUE) or collapses to "" (FALSE). */
  function AllowNull(f: StringField): bool {
    match f
    case Placeholder => false
    case Input => false
    case _ => true
  }

  /**
   * The rule of `blocks_mode_private_data_update_string`: what a string
   * member holds after an update carrying `root`.
   */
  function StringUpdate(current: Option<string>, root: Object, key: string, allowNull: bool): (r: Option<string>)
    ensures key !in root ==> r == current
    ensures key in root && root[key].JNull? ==> r == (if allowNull then None else Some(""))
    ensures key in root && root[key].JString? ==> r == Some(root[key].s)
    ensures key in root && !root[key].JNull? && !root[key].JString? ==> r == current
  {
    match GetMember(root, key)
    case None => current
    case Some(node) =>
      if node.JNull? then StringMemberAfterSet(current, if allowNull then None else Some(""))
      else if node.JString? then StringMemberAfterSet(current, Some(node.s))
      else current
  }

  /** With allow-null off, a defined member stays defined whatever the update carries. */
  lemma StringUpdateKeepsDefined(current: Option<string>, root: Object, key: string)
    requires current.Some?
    ensures StringUpdate(current, root, key, false).Some?
  {
  }

  /** The only way a member becomes undefined is an explicit null under allow-null. */
  lemma StringUpdateUndefines(current: Option<string>, root: Object, key: string, allowNull: bool)
    ensures StringUpdate(current, root, key, allowNull).None? <==>
      (key in root && root[key].JNull? && allowNull) || (current.None? && !(key in root && root[key].JString?) && !(key in root && root[key].JNull?))
  {
  }

  /** The root shapes the decoder relies on: `lines`, when present, is an array. */
  ghost predicate LinesAreArray(root: Object) {
    "lines" in root ==> root["lines"].JArray?
  }

  /** A parsed line the decoder can apply: an object whose `lines`, if any, is an array. */
  ghost predicate IsPage(j: Json) {
    j.JObject? && LinesAreArray(j.members)
  }

  /** A parser that, when it succeeds, yields a page object. */
  ghost predicate YieldsPages(parse: string -> Option<Json>) {
    forall s :: parse(s).Some? ==> IsPage(parse(s).value)
  }

  /** The rule of `blocks_mode_private_data_update_lines`: replaced wholesale when present, untouched when absent. */
  function LinesUpdate(current: seq<LineData>, markupDefault: MarkupStatus, root: Object): seq<LineData>
    requires LinesAreArray(root)
  {
    if "lines" in root then LinesOf(markupDefault, root["lines"].elements) else current
  }

  /** The step of one string rule: member `t` follows `StringUpdate` under `key`. */
  function StringStep(v: DataValue, t: Target, root: Object, key: string, allowNull: bool): DataValue {
    v.With(t, StringUpdate(v.Get(t), root, key, allowNull))
  }

  /** `case_sensitive` keeps its current value unless the key carries a boolean. */
  function CaseSensitivityStep(v: DataValue, root: Object): DataValue {
    v.(page := v.page.(caseSensitive := BooleanMemberOrElse(root, "case_sensitive", v.page.caseSensitive)))
  }

  /** `close_on_exit` keeps its current value unless the key carries a boolean. */
  function CloseOnChildExitStep(v: DataValue, root: Object): DataValue {
    v.(closeOnChildExit := BooleanMemberOrElse(root, "close_on_exit", v.closeOnChildExit))
  }

  function LinesStep(v: DataValue, root: Object): DataValue
    requires LinesAreArray(root)
  {
    v.(page := v.page.(lines := LinesUpdate(v.page.lines, v.page.markupDefault, root)))
  }

  /** `active_line` when it carries an integer, -1 otherwise: the pending focus is overwritten on every update. */
  function FocusEntryStep(v: DataValue, root: Object): DataValue {
    v.(entryToFocus := IntMemberOrElse(root, "active_line", -1))
  }

  /** The effect of applying one page object: every `update_*` rule, in the source's order. */
  function Decode(v: DataValue, root: Object): (r: DataValue)
    requires LinesAreArray(root)
    ensures r.entryToFocus == IntMemberOrElse(root, "active_line", -1)
  {
    var v1 := StringStep(v, OnPage(Icon), root, "icon", true);
    var v2 := CaseSensitivityStep(v1, root);
    var v3 := StringStep(v2, OnPage(Placeholder), root, "placeholder", false);
    var v4 := StringStep(v3, OnPage(Filter), root, "filter", true);
    var v5 := StringStep(v4, OnPage(Message), root, "message", true);
    var v6 := StringStep(v5, OnPage(Overlay), root, "overlay", true);
    var v7 := StringStep(v6, OnPage(Input), root, "input", false);
    var v8 := StringStep(v7, OnPage(Prompt), root, "prompt", true);
    var v9 := CloseOnChildExitStep(v8, root);
    var v10 := StringStep(v9, EventFormat, root, "event_format", false);
    var v11 := LinesStep(v10, root);
    FocusEntryStep(v11, root)
  }

  /** The effect of `blocks_mode_private_data_update_page` on a line that parsed to `parsed` (None: a parse error). */
  function ApplyLine(v: DataValue, parsed: Option<Json>): (r: DataValue)
    requires parsed.Some? ==> IsPage(parsed.value)
    ensures parsed.None? ==> r == v
    ensures parsed.Some? ==> r.entryToFocus == IntMemberOrElse(parsed.value.members, "active_line", -1)
  {
    match parsed
    case None => v
    case Some(j) => Decode(v, j.members)
  }

  /** A page member whose key is absent is not modified by an update. */
  lemma DecodeLeavesAbsentFieldUnchanged(v: DataValue, root: Object, f: StringField)
    requires LinesAreArray(root)
    requires FieldKey(f) !in root
    ensures Decode(v, root).page.Get(f) == v.page.Get(f)
  {
  }

  /** Each page member follows the string rule with its own key and allow-null policy. */
  lemma DecodeFieldPolicy(v: DataValue, root: Object, f: StringField)
    requires LinesAreArray(root)
    ensures Decode(v, root).page.Get(f) == StringUpdate(v.page.Get(f), root, FieldKey(f), AllowNull(f))
  {
  }

  /**
   * What no update touches: the markup default, the token set, the framer's
   * buffer and active line; booleans whose key is absent; and the line list
   * when `lines` is absent.
   */
  lemma DecodeFrame(v: DataValue, root: Object)
    requires LinesAreArray(root)
    ensures Decode(v, root).page.markupDefault == v.page.markupDefault
    ensures Decode(v, root).page.trigger == v.page.trigger
    ensures Decode(v, root).tokens == v.tokens
    ensures Decode(v, root).buffer == v.buffer && Decode(v, root).activeLine == v.activeLine
    ensures "case_sensitive" !in root ==> Decode(v, root).page.caseSensitive == v.page.caseSensitive
    ensures "close_on_exit" !in root ==> Decode(v, root).closeOnChildExit == v.closeOnChildExit
    ensures "lines" !in root ==> Decode(v, root).page.lines == v.page.lines
    ensures "event_format" !in root ==> Decode(v, root).eventFormat == v.eventFormat
  {
  }

  /** `active_line` is consumed by every update: the integer when present, -1 otherwise. */
  lemma DecodeResetsFocus(v: DataValue, root: Object)
    requires LinesAreArray(root)
    ensures "active_line" in root && root["active_line"].JInt? ==> Decode(v, root).entryToFocus == root["active_line"].i
    ensures !("active_line" in root && root["active_line"].JInt?) ==> Decode(v, root).entryToFocus == -1
  {
  }

  /** `input` and `event_format` are created defined and stay defined; so does a placeholder once set. */
  lemma DecodeKeepsDefined(v: DataValue, root: Object)
    requires LinesAreArray(root)
    ensures v.page.input.Some? ==> Decode(v, root).page.input.Some?
    ensures v.eventFormat.Some? ==> Decode(v, root).eventFormat.Some?
    ensures v.page.placeholder.Some? ==> Decode(v, root).page.placeholder.Some?
  {
    var d := Decode(v, root);
    DecodeFieldPolicy(v, root, Input);
    DecodeFieldPolicy(v, root, Placeholder);
    assert d.eventFormat == StringUpdate(v.eventFormat, root, "event_format", false);
    if v.page.input.Some? { StringUpdateKeepsDefined(v.page.input, root, "input"); }
    if v.eventFormat.Some? { StringUpdateKeepsDefined(v.eventFormat, root, "event_format"); }
    if v.page.placeholder.Some? { StringUpdateKeepsDefined(v.page.placeholder, root, "placeholder"); }
  }

  /** Applying the same page object twice is the same as applying it once. */
  lemma DecodeIdempotent(v: DataValue, root: Object)
    requires LinesAreArray(root)
    ensures Decode(Decode(v, root), root) == Decode(v, root)
  {
  }

  /** `BlocksModePrivateData`. */
  class ModeData {
    const page: Page
    var eventFormat: Option<string>
    var entryToFocus: int
    var tokens: Option<Tokens>
    var closeOnChildExit: bool
    var buffer: string
    var activeLine: string
    var root: Object
    var writeChannel: IOChannel?

    function Value(): DataValue
      reads this, page
    {
      DataValue(page.Value(), eventFormat, entryToFocus, tokens, closeOnChildExit, buffer, activeLine)
    }

    /** The members that are created defined and that no update can make undefined. */
    ghost predicate Valid()
      reads this, page
    {
      page.input.Some? && eventFormat.Some?
    }

    /** `blocks_mode_private_data_new`; no channel is attached yet. */
    constructor ()
      ensures Valid() && fresh(page)
      ensures Value() == DataValue(NewPage, Some(DefaultEventFormat), -1, None, true, "", "")
      ensures writeChannel == null
    {
      page := new Page();
      eventFormat := Some(DefaultEventFormat);
      entryToFocus := -1;
      tokens := None;
      closeOnChildExit := true;
      buffer := "";
      activeLine := "";
      root := map[];
      writeChannel := null;
      new;
      page.markupDefault := Undefined;
    }

    /** `page_data_set_string_member` on the member `t` names. */
    method SetTarget(t: Target, s: Option<string>)
      modifies this, page
      ensures Value() == old(Value()).With(t, s)
      ensures root == old(root) && writeChannel == old(writeChannel)
    {
      match t
      case OnPage(f) => page.SetStringMember(f, s);
      case EventFormat => eventFormat := StringMemberAfterSet(eventFormat, s);
    }

    /** `blocks_mode_private_data_update_string`. */
    method UpdateString(t: Target, key: string, allowNull: bool)
      modifies this, page
      ensures Value() == old(Value()).With(t, StringUpdate(old(Value()).Get(t), root, key, allowNull))
      ensures root == old(root) && writeChannel == old(writeChannel)
    {
      var node := GetMember(root, key);
      if node.None? {
        return;
      } else if node.value.JNull? {
        SetTarget(t, if allowNull then None else Some(""));
      } else if node.value.JString? {
        SetTarget(t, Some(node.value.s));
      }
    }

    method UpdateIcon()
      modifies this, page
      ensures Value() == StringStep(old(Value()), OnPage(Icon), root, "icon", true)
      ensures root == old(root) && writeChannel == old(writeChannel)
    {
      UpdateString(OnPage(Icon), "icon", true);
    }

    method UpdateCaseSensitivity()
      modifies page
      ensures Value() == CaseSensitivityStep(old(Value()), root)
    {
      page.caseSensitive := BooleanMemberOrElse(root, "case_sensitive", page.caseSensitive);
    }

    method UpdatePlaceholder()
      modifies this, page
      ensures Value() == StringStep(old(Value()), OnPage(Placeholder), root, "placeholder", false)
      ensures root == old(root) && writeChannel == old(writeChannel)
    {
      UpdateString(OnPage(Placeholder), "placeholder", false);
    }

    method UpdateFilter()
      modifies this, page
      ensures Value() == StringStep(old(Value()), OnPage(Filter), root, "filter", true)
      ensures root == old(root) && writeChannel == old(writeChannel)
    {
      UpdateString(OnPage(Filter), "filter", true);
    }

    method UpdateMessage()
      modifies this, page
      ensures Value() == StringStep(old(Value()), OnPage(Message), root, "message", true)
      ensures root == old(root) && writeChannel == old(writeChannel)
    {
      UpdateString(OnPage(Message), "message", true);
    }

    method UpdateOverlay()
      modifies this, page
      ensures Value() == StringStep(old(Value()), OnPage(Overlay), root, "overlay", true)
      ensures root == old(root) && writeChannel == old(writeChannel)
    {
      UpdateString(OnPage(Overlay), "overlay", true);
    }

    method UpdatePrompt()
      modifies this, page
      ensures Value() == StringStep(old(Value()), OnPage(Prompt), root, "prompt", true)
      ensures root == old(root) && writeChannel == old(writeChannel)
    {
      UpdateString(OnPage(Prompt), "prompt", true);
    }

    method UpdateInput()
      modifies this, page
      ensures Value() == StringStep(old(Value()), OnPage(Input), root, "input", false)
      ensures root == old(root) && writeChannel == old(writeChannel)
    {
      UpdateString(OnPage(Input), "input", false);
    }

    method UpdateEventFormat()
      modifies this, page
      ensures Value() == StringStep(old(Value()), EventFormat, root, "event_format", false)
      ensures root == old(root) && writeChannel == old(writeChannel)
    {
      UpdateString(EventFormat, "event_format", false);
    }

    method UpdateFocusEntry()
      modifies this`entryToFocus
      ensures Value() == FocusEntryStep(old(Value()), root)
    {
      entryToFocus := IntMemberOrElse(root, "active_line", -1);
    }

    method UpdateCloseOnChildExit()
      modifies this`closeOnChildExit
      ensures Value() == CloseOnChildExitStep(old(Value()), root)
    {
      var orig := closeOnChildExit;
      var now := BooleanMemberOrElse(root, "close_on_exit", orig);
      closeOnChildExit := now;
    }

    /** `blocks_mode_private_data_update_lines`: clear, then append the array's elements in order. */
    method UpdateLines()
      requires LinesAreArray(root)
      modifies page
      ensures Value() == LinesStep(old(Value()), root)
    {
      if "lines" in root {
        var lines := root["lines"].elements;
        page.ClearLines();
        for i := 0 to |lines|
          invariant page.Value() == old(page.Value()).(lines := LinesOf(page.markupDefault, lines[..i]))
        {
          page.AddLineJsonNode(lines[i]);
          assert lines[..i + 1][..i] == lines[..i];
        }
        assert lines[..|lines|] == lines;
      }
    }

    /**
     * `blocks_mode_private_data_update_page`: a line that does not parse
     * changes nothing; otherwise every rule is applied, icon first and
     * active_line last.
     */
    method UpdatePage(parse: string -> Option<Json>)
      requires parse(activeLine).Some? ==> IsPage(parse(activeLine).value)
      modifies this, page
      ensures Value() == ApplyLine(old(Value()), parse(old(activeLine)))
      ensures writeChannel == old(writeChannel)
    {
      var parsed := parse(activeLine);
      if parsed.None? {
        return;
      }
      root := parsed.value.members;
      ghost var v0 := Value();
      UpdateIcon();
      ghost var v1 := Value();
      UpdateCaseSensitivity();
      ghost var v2 := Value();
      UpdatePlaceholder();
      ghost var v3 := Value();
      UpdateFilter();
      ghost var v4 := Value();
      UpdateMessage();
      ghost var v5 := Value();
      UpdateOverlay();
      ghost var v6 := Value();
      UpdateInput();
      ghost var v7 := Value();
      UpdatePrompt();
      ghost var v8 := Value();
      UpdateCloseOnChildExit();
      ghost var v9 := Value();
      UpdateEventFormat();
      ghost var v10 := Value();
      UpdateLines();
      ghost var v11 := Value();
      UpdateFocusEntry();
      assert Value() == FocusEntryStep(v11, root);
    }
  }
}
