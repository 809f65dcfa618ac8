/**
 * The decisions the host asks the mode for while drawing (src/blocks.c):
 * whether a line matches the typed text (`blocks_mode_token_match`), the
 * state bits and text of a line (`blocks_mode_get_display_value`) and the
 * position of the selection (`blocks_mode_rofi_view_get_current_position`).
 */
module ModeCallbacks {
  import opened Optional
  import opened PageData
  import opened BlocksModeData

  /**
   * `blocks_mode_token_match`. `typed` is the token set the host built from
   * the typed text; `matches` is the host's token matcher, and `None` is the
   * NULL text it can be handed. `strip` removes Pango markup and gives `None`
   * for markup Pango rejects, whose result pointer then stays NULL. A token
   * set built from the script's filter replaces the typed tokens; a filter
   * set to "" matches every line.
   */
  function TokenMatch(data: ModeData, typed: Option<Tokens>, index: nat,
                      matches: (Option<Tokens>, Option<string>) -> bool, strip: string -> Option<string>): (r: bool)
    reads data, data.page
    ensures index >= |data.page.lines| ==> !r
    ensures index < |data.page.lines| && !data.page.lines[index].filter ==> r
    ensures (index < |data.page.lines| && data.page.lines[index].filter
             && data.tokens.None? && data.page.filter == Some("")) ==> r
  {
    match GetLineByIndexOrElse(data.page, index, None)
    case None => false
    case Some(line) =>
      if !line.filter then true
      else if data.tokens.None? && data.page.filter.Some? && data.page.filter.value == "" then true
      else
        var tokens := if data.tokens.None? then typed else data.tokens;
        if line.metatext.Some? then matches(tokens, strip(line.metatext.value))
        else if !line.markup then matches(tokens, Some(line.text))
        else matches(tokens, strip(line.text))
  }

  /**
   * Which text of a line is matched, and whether its markup is stripped:
   * the metatext when there is one, always parsed as markup; otherwise the
   * text, parsed only when the line is markup. Markup Pango rejects reaches
   * the matcher as NULL.
   */
  lemma {:induction false} MatchedTextOfLine(data: ModeData, typed: Option<Tokens>, index: nat,
                                             matches: (Option<Tokens>, Option<string>) -> bool, strip: string -> Option<string>)
    requires index < |data.page.lines| && data.page.lines[index].filter
    requires !(data.tokens.None? && data.page.filter == Some(""))
    ensures var line := data.page.lines[index];
      var tokens := if data.tokens.None? then typed else data.tokens;
      TokenMatch(data, typed, index, matches, strip) ==
        if line.metatext.Some? then matches(tokens, strip(line.metatext.value))
        else if line.markup then matches(tokens, strip(line.text))
        else matches(tokens, Some(line.text))
  {
    assert GetLineByIndexOrElse(data.page, index, None) == Some(data.page.lines[index]);
  }

  /**
   * Once the script's filter has given a token set, or is "", it decides
   * alone: what the user typed has no effect on which lines match.
   */
  lemma {:induction false} ScriptFilterOverridesTyped(data: ModeData, t1: Option<Tokens>, t2: Option<Tokens>, index: nat,
                                                      matches: (Option<Tokens>, Option<string>) -> bool, strip: string -> Option<string>)
    requires data.tokens.Some? || data.page.filter == Some("")
    ensures TokenMatch(data, t1, index, matches, strip) == TokenMatch(data, t2, index, matches, strip)
  {
    if index < |data.page.lines| {
      assert GetLineByIndexOrElse(data.page, index, None) == Some(data.page.lines[index]);
    } else {
      assert GetLineByIndexOrElse(data.page, index, None) == None;
    }
  }

  /**
   * A script filter made of blanks gives the tokenizer nothing to build, so
   * the line is matched against what the user typed after all.
   */
  lemma {:induction false} BlankFilterUsesTypedTokens(data: ModeData, typed: Option<Tokens>, index: nat,
                                                      matches: (Option<Tokens>, Option<string>) -> bool, strip: string -> Option<string>)
    requires data.page.filter.Some? && data.page.filter.value != "" && Blank(data.page.filter.value)
    requires data.tokens == Tokenize(data.page.filter.value, data.page.caseSensitive)
    requires index < |data.page.lines| && data.page.lines[index].filter
    requires data.page.lines[index].metatext.None? && !data.page.lines[index].markup
    ensures TokenMatch(data, typed, index, matches, strip) == matches(typed, Some(data.page.lines[index].text))
  {
    assert GetLineByIndexOrElse(data.page, index, None) == Some(data.page.lines[index]);
  }

  /** Metatext that Pango rejects as markup is matched as NULL, whatever the line's markup flag. */
  lemma {:induction false} RejectedMarkupMatchedAsNull(data: ModeData, typed: Option<Tokens>, index: nat,
                                                       matches: (Option<Tokens>, Option<string>) -> bool, strip: string -> Option<string>)
    requires index < |data.page.lines| && data.page.lines[index].filter
    requires !(data.tokens.None? && data.page.filter == Some(""))
    requires data.page.lines[index].metatext.Some? && strip(data.page.lines[index].metatext.value).None?
    ensures TokenMatch(data, typed, index, matches, strip)
      == matches(if data.tokens.None? then typed else data.tokens, None)
  {
    assert GetLineByIndexOrElse(data.page, index, None) == Some(data.page.lines[index]);
  }

  /** Without a filter from the script the typed tokens are used. */
  lemma {:induction false} TypedTokensWithoutFilter(data: ModeData, typed: Option<Tokens>, index: nat,
                                                    matches: (Option<Tokens>, Option<string>) -> bool, strip: string -> Option<string>)
    requires data.page.filter.None? && data.tokens.None?
    requires index < |data.page.lines| && data.page.lines[index].filter
    requires data.page.lines[index].metatext.None? && !data.page.lines[index].markup
    ensures TokenMatch(data, typed, index, matches, strip) == matches(typed, Some(data.page.lines[index].text))
  {
    assert GetLineByIndexOrElse(data.page, index, None) == Some(data.page.lines[index]);
  }

  /** The bit `get_display_value` sets for a line index with no line. */
  const NoLineBit: bv32 := 16

  /** The state bits of a line: 1 urgent, 2 highlighted, 8 markup. */
  function LineStateBits(line: LineData): (r: bv32)
    ensures r & 1 != 0 <==> line.urgent
    ensures r & 2 != 0 <==> line.highlight
    ensures r & 8 != 0 <==> line.markup
    ensures r & !11 == 0
  {
    (if line.urgent then 1 else 0) + (if line.highlight then 2 else 0) + (if line.markup then 8 else 0)
  }

  /** What `get_display_value` gives back: the bits it or-s into `*state` and, when asked for, the text. */
  datatype Display = Display(stateBits: bv32, text: Option<string>)

  /**
   * `blocks_mode_get_display_value`: the line's state bits, or the no-line
   * bit for an index with no line; the line's text ("" without a line) only
   * when the entry is asked for. The bits are or-ed into the host's state, so
   * the bits it already holds are kept.
   */
  function DisplayValue(page: Page, index: nat, getEntry: bool): (r: Display)
    reads page
    ensures r.stateBits & NoLineBit != 0 <==> index >= |page.lines|
    ensures r.stateBits & 1 != 0 <==> index < |page.lines| && page.lines[index].urgent
    ensures r.stateBits & 2 != 0 <==> index < |page.lines| && page.lines[index].highlight
    ensures r.stateBits & 8 != 0 <==> index < |page.lines| && page.lines[index].markup
    ensures r.stateBits & !27 == 0
    ensures getEntry <==> r.text.Some?
    ensures getEntry ==> r.text.value == if index < |page.lines| then page.lines[index].text else ""
  {
    match GetLineByIndexOrElse(page, index, None)
    case None => Display(NoLineBit, if getEntry then Some("") else None)
    case Some(line) =>
      var bits := LineStateBits(line);
      BitsOutsideMask(bits);
      Display(bits, if getEntry then Some(line.text) else None)
  }

  lemma BitsOutsideMask(b: bv32)
    requires b & !11 == 0
    ensures b & NoLineBit == 0
    ensures b & !27 == 0
  {
  }

  /** `UINT32_MAX`. */
  const Uint32Max: int := 0xFFFF_FFFF

  /** `unsigned int` subtraction of one: wraps from 0 to `UINT32_MAX`. */
  function UintPred(n: nat): (r: nat)
    requires n <= Uint32Max
    ensures r <= Uint32Max
    ensures n > 0 ==> r == n - 1
    ensures n == 0 ==> r == Uint32Max
  {
    (n - 1 + Uint32Max + 1) % (Uint32Max + 1)
  }

  /**
   * `blocks_mode_rofi_view_get_current_position`: the line before the host's
   * next position, or the last line when the next position is 0 or within
   * 10 of `UINT32_MAX`. The subtraction is unsigned, so on an empty page the
   * last line is `UINT32_MAX`.
   */
  function CurrentPosition(nextPosition: nat, page: Page): (r: nat)
    reads page
    requires nextPosition <= Uint32Max && |page.lines| <= Uint32Max
    ensures r <= Uint32Max
    ensures (nextPosition == 0 || nextPosition >= Uint32Max - 10) ==> r == UintPred(|page.lines|)
    ensures 0 < nextPosition < Uint32Max - 10 ==> r == nextPosition - 1
  {
    var length := GetNumberOfLines(page);
    if nextPosition <= 0 || nextPosition >= Uint32Max - 10 then UintPred(length)
    else UintPred(nextPosition)
  }

  /** An ordinary next position within the list names a line; an unusable one names the last line. */
  lemma CurrentPositionInRange(nextPosition: nat, page: Page)
    requires nextPosition <= Uint32Max && |page.lines| <= Uint32Max
    ensures 0 < nextPosition <= |page.lines| && nextPosition < Uint32Max - 10 ==> CurrentPosition(nextPosition, page) < |page.lines|
    ensures (nextPosition == 0 || nextPosition >= Uint32Max - 10) && |page.lines| > 0 ==>
      CurrentPosition(nextPosition, page) == |page.lines| - 1
  {
  }

  /** On an empty page an unusable next position wraps to `UINT32_MAX`, not a line index. */
  lemma CurrentPositionOnEmptyPageWraps(nextPosition: nat, page: Page)
    requires nextPosition <= Uint32Max && |page.lines| == 0
    requires nextPosition == 0 || nextPosition >= Uint32Max - 10
    ensures CurrentPosition(nextPosition, page) == Uint32Max
  {
  }
}
