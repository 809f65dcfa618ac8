/**
 * The page state store (src/page_data.c): the one live page of the menu, its
 * optional string members and its list of lines.
 *
 * Every optional member is a `GString*` in the source and has three states:
 * undefined (NULL), defined and empty, defined with a value. Here it is an
 * `Option<string>`: `None`, `Some("")`, `Some(s)`.
 */
module PageData {
  import opened Optional
  import opened Json

  datatype MarkupStatus = Undefined | Enabled | Disabled

  /** One row of the menu. `metatext` is the only member that may be NULL. */
  datatype LineData = LineData(
    text: string,
    metatext: Option<string>,
    icon: string,
    data: string,
    urgent: bool,
    highlight: bool,
    markup: bool,
    nonselectable: bool,
    filter: bool)

  /** The optional string members of a page that the protocol can set. */
  datatype StringField = Message | Overlay | Prompt | Placeholder | Filter | Icon | Input

  /** The abstract value of a page: every member of `PageData`. */
  datatype PageValue = PageValue(
    markupDefault: MarkupStatus,
    message: Option<string>,
    overlay: Option<string>,
    prompt: Option<string>,
    placeholder: Option<string>,
    filter: Option<string>,
    icon: Option<string>,
    trigger: Option<string>,
    caseSensitive: bool,
    input: Option<string>,
    lines: seq<LineData>)
  {
    function Get(f: StringField): Option<string> {
      match f
      case Message => message
      case Overlay => overlay
      case Prompt => prompt
      case Placeholder => placeholder
      case Filter => filter
      case Icon => icon
      case Input => input
    }

    /** This page with member `f` replaced by `s` and nothing else changed. */
    function With(f: StringField, s: Option<string>): PageValue {
      match f
      case Message => this.(message := s)
      case Overlay => this.(overlay := s)
      case Prompt => this.(prompt := s)
      case Placeholder => this.(placeholder := s)
      case Filter => this.(filter := s)
      case Icon => this.(icon := s)
      case Input => this.(input := s)
    }
  }

  /** What `page_data_new` builds: every optional member undefined except `input`, which is defined and empty. */
  const NewPage := PageValue(Undefined, None, None, None, None, None, None, None, false, Some(""), [])

  /**
   * `page_data_is_string_equal`: both undefined are equal, exactly one
   * undefined is unequal (even against ""), two defined members compare by
   * content. That is exactly equality of the three-state values.
   */
  function IsStringEqual(a: Option<string>, b: Option<string>): (r: bool)
    ensures r <==> a == b
  {
    if a.None? && b.None? then true
    else if a.Some? && b.Some? then a.value == b.value
    else false
  }

  /** The three-state comparison keeps undefined apart from defined-and-empty. */
  lemma UndefinedIsNotEmpty()
    ensures !IsStringEqual(None, Some(""))
    ensures !IsStringEqual(Some(""), None)
  {
  }

  /** The three-state comparison is reflexive and symmetric. */
  lemma IsStringEqualReflexiveSymmetric(a: Option<string>, b: Option<string>)
    ensures IsStringEqual(a, a)
    ensures IsStringEqual(a, b) == IsStringEqual(b, a)
  {
  }

  /** `is_page_data_string_member_empty`: undefined or of length 0. */
  function IsStringMemberEmpty(member: Option<string>): (r: bool)
    ensures r <==> member.None? || member.value == ""
  {
    member.None? || |member.value| <= 0
  }

  /** `get_page_data_string_member_or_empty_string`. */
  function StringMemberOrEmpty(member: Option<string>): (r: string)
    ensures member.Some? ==> r == member.value
    ensures member.None? ==> r == ""
  {
    match member
    case None => ""
    case Some(s) => s
  }

  /**
   * The value a member holds after `page_data_set_string_member(&member, newString)`:
   * the four transitions (assign in place, free, create, stay NULL) all end
   * with the member holding exactly `newString`.
   */
  function StringMemberAfterSet(member: Option<string>, newString: Option<string>): (r: Option<string>)
    ensures r == newString
    ensures r.None? <==> newString.None?
  {
    var isDefined := member.Some?;
    var willDefine := newString.Some?;
    if isDefined && willDefine then Some(newString.value)   // g_string_assign
    else if isDefined && !willDefine then None             // g_string_free, member := NULL
    else if !isDefined && willDefine then Some(newString.value) // g_string_new
    else member                                            // already NULL
  }

  /** The lines a JSON node in a `lines` array contributes: one, or none when it is neither a string nor an object. */
  function LineOfJsonNode(markupDefault: MarkupStatus, node: Json): (r: Option<LineData>)
    ensures r.Some? <==> node.JString? || node.JObject?
    ensures node.JString? ==>
      r == Some(LineData(node.s, None, "", "", false, false, markupDefault == Enabled, false, true))
    ensures node.JObject? ==> LineHonoursKeys(node.members, markupDefault, r.value)
  {
    if node.JString? then
      Some(LineData(node.s, None, "", "", false, false, markupDefault == Enabled, false, true))
    else if node.JObject? then
      var obj := node.members;
      Some(LineData(
        StringMemberOrElse(obj, "text", Some("")).value,
        StringMemberOrElse(obj, "metatext", None),
        StringMemberOrElse(obj, "icon", Some("")).value,
        StringMemberOrElse(obj, "data", Some("")).value,
        BooleanMemberOrElse(obj, "urgent", false),
        BooleanMemberOrElse(obj, "highlight", false),
        BooleanMemberOrElse(obj, "markup", markupDefault == Enabled),
        BooleanMemberOrElse(obj, "nonselectable", false),
        BooleanMemberOrElse(obj, "filter", true)))
    else
      None
  }

  /** A key present with a string takes that string, otherwise the member has its default. */
  ghost predicate StringKey(obj: Object, key: string, value: Option<string>, default: Option<string>) {
    if key in obj && obj[key].JString? then value == Some(obj[key].s) else value == default
  }

  /** A key present with a boolean takes that boolean, otherwise the member has its default. */
  ghost predicate BoolKey(obj: Object, key: string, value: bool, default: bool) {
    if key in obj && obj[key].JBool? then value == obj[key].b else value == default
  }

  /** The per-key rule for a line given as an object, with the defaults of page_data.c. */
  ghost predicate LineHonoursKeys(obj: Object, markupDefault: MarkupStatus, line: LineData) {
    && StringKey(obj, "text", Some(line.text), Some(""))
    && StringKey(obj, "metatext", line.metatext, None)
    && StringKey(obj, "icon", Some(line.icon), Some(""))
    && StringKey(obj, "data", Some(line.data), Some(""))
    && BoolKey(obj, "urgent", line.urgent, false)
    && BoolKey(obj, "highlight", line.highlight, false)
    && BoolKey(obj, "markup", line.markup, markupDefault == Enabled)
    && BoolKey(obj, "nonselectable", line.nonselectable, false)
    && BoolKey(obj, "filter", line.filter, true)
  }

  /** The lines a node adds to the list, as a sequence of zero or one line. */
  function NodeLines(markupDefault: MarkupStatus, node: Json): seq<LineData> {
    match LineOfJsonNode(markupDefault, node)
    case None => []
    case Some(line) => [line]
  }

  /** The line list built by adding the nodes of a `lines` array one after the other. */
  function LinesOf(markupDefault: MarkupStatus, nodes: seq<Json>): seq<LineData>
    decreases |nodes|
  {
    if nodes == [] then []
    else LinesOf(markupDefault, nodes[..|nodes| - 1]) + NodeLines(markupDefault, nodes[|nodes| - 1])
  }

  /** A `lines` array never yields more lines than it has elements. */
  lemma {:induction false} LinesOfLength(markupDefault: MarkupStatus, nodes: seq<Json>)
    ensures |LinesOf(markupDefault, nodes)| <= |nodes|
    decreases |nodes|
  {
    if nodes != [] {
      LinesOfLength(markupDefault, nodes[..|nodes| - 1]);
    }
  }

  /**
   * When every element is a string or an object, the array yields exactly one
   * line per element, in order, and line `k` is what element `k` decodes to.
   */
  lemma {:induction false} LinesOfInOrder(markupDefault: MarkupStatus, nodes: seq<Json>, k: nat)
    requires forall j :: 0 <= j < |nodes| ==> nodes[j].JString? || nodes[j].JObject?
    requires k < |nodes|
    ensures |LinesOf(markupDefault, nodes)| == |nodes|
    ensures Some(LinesOf(markupDefault, nodes)[k]) == LineOfJsonNode(markupDefault, nodes[k])
    decreases |nodes|
  {
    var n := |nodes| - 1;
    var init := nodes[..n];
    assert forall j :: 0 <= j < |init| ==> init[j] == nodes[j];
    if n == 0 {
      assert LinesOf(markupDefault, init) == [];
    } else {
      LinesOfInOrder(markupDefault, init, if k < n then k else 0);
    }
  }

  /** The store itself: `PageData`, one live instance, updated in place. */
  class Page {
    var markupDefault: MarkupStatus
    var message: Option<string>
    var overlay: Option<string>
    var prompt: Option<string>
    var placeholder: Option<string>
    var filter: Option<string>
    var icon: Option<string>
    var trigger: Option<string>
    var caseSensitive: bool
    var input: Option<string>
    var lines: seq<LineData>

    function Value(): PageValue
      reads this
    {
      PageValue(markupDefault, message, overlay, prompt, placeholder, filter, icon, trigger,
                caseSensitive, input, lines)
    }

    /** `page_data_new`. */
    constructor ()
      ensures Value() == NewPage
    {
      markupDefault := Undefined;
      message := None;
      overlay := None;
      prompt := None;
      placeholder := None;
      filter := None;
      icon := None;
      trigger := None;
      caseSensitive := false;
      input := Some("");
      lines := [];
    }

    /** `page_data_set_string_member(&page->f, newString)`: the member holds exactly `newString`, nothing else changes. */
    method SetStringMember(f: StringField, newString: Option<string>)
      modifies this
      ensures Value() == old(Value()).With(f, newString)
    {
      var next := StringMemberAfterSet(Value().Get(f), newString);
      match f
      case Message => message := next;
      case Overlay => overlay := next;
      case Prompt => prompt := next;
      case Placeholder => placeholder := next;
      case Filter => filter := next;
      case Icon => icon := next;
      case Input => input := next;
    }

    /** `page_data_add_line`: one line appended at the end, earlier lines and every other member unchanged. */
    method AddLine(text: string, metatext: Option<string>, icon: string, data: string,
                   urgent: bool, highlight: bool, markup: bool, nonselectable: bool, filter: bool)
      modifies this
      ensures Value() == old(Value()).(lines := old(lines) + [LineData(text, metatext, icon, data,
                                                   urgent, highlight, markup, nonselectable, filter)])
    {
      var line := LineData(text, metatext, icon, data, urgent, highlight, markup, nonselectable, filter);
      lines := lines + [line];
    }

    /** `page_data_add_line_json_node`: a string or an object adds one line, any other node adds nothing. */
    method AddLineJsonNode(node: Json)
      modifies this
      ensures Value() == old(Value()).(lines := old(lines) + NodeLines(markupDefault, node))
    {
      if node.JString? {
        AddLine(node.s, None, "", "", false, false, markupDefault == Enabled, false, true);
      } else if node.JObject? {
        var obj := node.members;
        var text := StringMemberOrElse(obj, "text", Some("")).value;
        var metatext := StringMemberOrElse(obj, "metatext", None);
        var icon := StringMemberOrElse(obj, "icon", Some("")).value;
        var data := StringMemberOrElse(obj, "data", Some("")).value;
        var urgent := BooleanMemberOrElse(obj, "urgent", false);
        var highlight := BooleanMemberOrElse(obj, "highlight", false);
        var markup := BooleanMemberOrElse(obj, "markup", markupDefault == Enabled);
        var nonselectable := BooleanMemberOrElse(obj, "nonselectable", false);
        var filter := BooleanMemberOrElse(obj, "filter", true);
        AddLine(text, metatext, icon, data, urgent, highlight, markup, nonselectable, filter);
      }
    }

    /** `page_data_clear_lines`: the list is empty afterwards and no other member changes. */
    method ClearLines()
      modifies this
      ensures Value() == old(Value()).(lines := [])
    {
      lines := [];
    }
  }

  /** `page_data_is_message_empty`: a missing page, an undefined message or one of length 0. */
  function IsMessageEmpty(page: Page?): (r: bool)
    reads page
    ensures r <==> page == null || page.message.None? || page.message.value == ""
  {
    if page != null then IsStringMemberEmpty(page.message) else true
  }

  /** `page_data_get_message_or_empty_string`: "" exactly when there is no page or the message is undefined. */
  function GetMessageOrEmptyString(page: Page?): (r: string)
    reads page
    ensures page != null && page.message.Some? ==> r == page.message.value
    ensures page == null || page.message.None? ==> r == ""
  {
    if page != null then StringMemberOrEmpty(page.message) else ""
  }

  /** The message is reported empty exactly when its "or empty" text is "". */
  lemma MessageEmptyIffEmptyText(page: Page?)
    ensures IsMessageEmpty(page) <==> GetMessageOrEmptyString(page) == ""
  {
  }

  /** `page_data_get_number_of_lines`. */
  function GetNumberOfLines(page: Page): (r: nat)
    reads page
    ensures r == |page.lines|
  {
    |page.lines|
  }

  /**
   * `page_data_get_line_by_index_or_else`: the fallback when there is no page
   * or the index is past the last line, the line at `index` otherwise.
   */
  function GetLineByIndexOrElse(page: Page?, index: nat, elseValue: Option<LineData>): (r: Option<LineData>)
    reads page
    ensures page == null || index >= |page.lines| ==> r == elseValue
    ensures page != null && index < |page.lines| ==> r == Some(page.lines[index])
  {
    if page == null || index >= |page.lines| then elseValue
    else Some(page.lines[index])
  }
}
