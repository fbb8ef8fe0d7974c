/** The Hazardous Weather Outlook text parser of `Forecast.get_hwo`
    (forecast.py): a line-by-line state machine over the text of each
    bulletin item, driven by a line counter, a parsing mode, a text buffer
    and an `additional` slot, that fills one result dictionary per item. */
module Hwo {
  import opened PyValue
  import opened PyStr

  /** The `mode` variable; `NoMode` is Python's `None`. */
  datatype Mode =
    | NoMode
    | County
    | AffectedAreas
    | DayOne
    | DaysTwoSeven
    | SpotterActivation
    | StormMotion

  /** The `additional` slot: the day-one period text, or the start and end
      day names of the days-two-through-seven header. */
  datatype Additional = Text(text: string) | Days(start: string, end: string)

  /** A `{"period": ..., "info": ...}` section. */
  datatype Section = Section(period: Additional, info: string)

  /** The `hwo` result dictionary of one item: each key present or absent. */
  datatype Entry = Entry(
    state: Option<string>,
    city: Option<string>,
    datetime: Option<string>,
    counties: Option<string>,
    affected: Option<string>,
    day1: Option<Section>,
    day27: Option<Section>,
    spotter: Option<string>,
    motion: Option<string>)

  const EmptyEntry: Entry := Entry(None, None, None, None, None, None, None, None, None)

  /** `if hwo:` in Python: a dictionary is true when it has a key. */
  predicate IsEmpty(e: Entry) {
    e == EmptyEntry
  }

  /** The parser's variables between two lines. */
  datatype State = State(lc: nat, mode: Mode, buffer: string, additional: Additional, hwo: Entry)

  const Initial: State := State(0, NoMode, "", Text(""), EmptyEntry)

  /** What the parser knows from outside the text: the office city and
      state (from the office cache), `include_all`, and the library date
      parser `datetime.strptime(...).isoformat()`, which may raise. */
  datatype Context = Context(
    officeCity: Option<string>,
    officeState: Option<string>,
    includeAll: bool,
    parseDate: string -> Outcome<string>)

  /** The effect of one line: go on, stop the item (`break`), or raise. */
  datatype Next = Continue(st: State) | Stop(st: State) | Fail(error: PyError)

  /** A blank line as the source tests it. */
  predicate IsBlank(line: string) {
    line == "" || line == " "
  }

  const NwsPrefix: string := "National Weather Service "

  /** Line 2 with the prefix removed, split on single spaces: the last
      piece is the state, the others joined by single spaces the city. */
  function OfficeName(line: string): (cityState: (string, string))
  {
    var parts := Split(ReplaceAll(line, NwsPrefix, ""), " ");
    (Join(parts[..|parts| - 1], " "), parts[|parts| - 1])
  }

  /** Line 3 with its third space-separated piece (the time zone) removed,
      or `None` when the line has fewer than three pieces (`pop(2)` raises
      IndexError). */
  function DateText(line: string): Option<string>
  {
    var arr := Split(line, " ");
    if |arr| < 3 then None else Some(Join(arr[..2] + arr[3..], " "))
  }

  /** The text after `.DAY ONE...` with every `.` removed. */
  function DayOnePeriod(line: string): string {
    ReplaceAll(ReplaceAll(line, ".DAY ONE...", ""), ".", "")
  }

  /** The text after `.DAYS TWO THROUGH SEVEN...` with every `.` removed. */
  function DaysInfo(line: string): string {
    ReplaceAll(ReplaceAll(line, ".DAYS TWO THROUGH SEVEN...", ""), ".", "")
  }

  predicate SpaceJoinMode(m: Mode) {
    m == County || m == AffectedAreas || m == SpotterActivation
  }

  predicate LineJoinMode(m: Mode) {
    m == DayOne || m == DaysTwoSeven || m == StormMotion
  }

  /** Line 2: record the office city and state, or stop the item when
      they differ from the known office (unless `include_all`). */
  function OfficeStep(st: State, line: string, ctx: Context): Next
  {
    var (city, state) := OfficeName(line);
    if ctx.officeState.Some? && ctx.officeCity.Some? && !ctx.includeAll
       && (ctx.officeState.value != state || ctx.officeCity.value != city)
    then Stop(st)
    else Continue(st.(hwo := st.hwo.(state := Some(state), city := Some(city))))
  }

  /** Line 3: parse the issuance date and start the county list. */
  function DateStep(st: State, line: string, ctx: Context): Next
  {
    match DateText(line)
    case None => Fail(IndexError)
    case Some(text) =>
      match ctx.parseDate(text)
      case Raise(e) => Fail(e)
      case Return(dt) => Continue(st.(hwo := st.hwo.(datetime := Some(dt)), mode := County))
  }

  /** A line after line 3: a section header, a terminator, or text added
      to the buffer. */
  function BodyStep(st: State, line: string): Next
  {
    var lower := Lower(line);
    if StartsWith(lower, ".day one") then
      Continue(st.(mode := DayOne, additional := Text(DayOnePeriod(line))))
    else if StartsWith(lower, ".days two through seven") then
      var st1 := if st.mode == DayOne && st.buffer != ""
                 then st.(hwo := st.hwo.(day1 := Some(Section(st.additional, st.buffer))), buffer := "")
                 else st;
      var period := Split(DaysInfo(line), " through ");
      if |period| < 2 then Fail(IndexError)
      else Continue(st1.(mode := DaysTwoSeven, additional := Days(period[0], period[1])))
    else if StartsWith(lower, ".spotter information statement") then
      var st1 := if st.mode == DaysTwoSeven
                 then st.(hwo := st.hwo.(day27 := Some(Section(st.additional, st.buffer))),
                          buffer := "", additional := Text(""))
                 else st;
      Continue(st1.(mode := SpotterActivation))
    else if StartsWith(lower, "general storm motion of the day:") then
      Continue(st.(mode := StormMotion))
    else if StartsWith(line, "$$") || StartsWith(line, "&&") then
      Stop(if st.mode == StormMotion then st.(hwo := st.hwo.(motion := Some(Strip(st.buffer)))) else st)
    else Continue(Collect(st, line))
  }

  /** A line that is neither header nor terminator joins the buffer,
      followed by a space or a newline according to the mode. */
  function Collect(st: State, line: string): State
  {
    if SpaceJoinMode(st.mode) then st.(buffer := st.buffer + line + " ")
    else if LineJoinMode(st.mode) then st.(buffer := st.buffer + line + "\n")
    else st
  }

  /** The `if lc == 1 ... elif ...` chain, entered with `lc` already
      counting this line. */
  function Dispatch(st: State, line: string, ctx: Context): Next
  {
    if st.lc == 1 then Continue(st)
    else if st.lc == 2 then OfficeStep(st, line, ctx)
    else if st.lc == 3 then DateStep(st, line, ctx)
    else BodyStep(st, line)
  }

  /** One iteration of the line loop. */
  function Step(st: State, line: string, ctx: Context): Next
  {
    var st0 := st.(lc := st.lc + 1);
    if IsBlank(line) then
      if st0.mode == County && st0.lc > 4 then
        Dispatch(st0.(hwo := st0.hwo.(counties := Some(Strip(st0.buffer))), buffer := "", mode := AffectedAreas),
                 line, ctx)
      else if st0.mode == AffectedAreas then
        Continue(st0.(hwo := st0.hwo.(affected := Some(Strip(st0.buffer))), buffer := "", mode := NoMode))
      else if st0.mode == SpotterActivation then
        if st0.buffer != "" then
          Continue(st0.(hwo := st0.hwo.(spotter := Some(Strip(st0.buffer))), buffer := "", mode := NoMode))
        else Dispatch(st0, line, ctx)
      else Continue(st0)
    else Dispatch(st0, line, ctx)
  }

  /** The line loop from state `st` over `lines`. */
  function Run(st: State, lines: seq<string>, ctx: Context): Next
    decreases |lines|
  {
    if lines == [] then Continue(st)
    else
      match Step(st, lines[0], ctx)
      case Continue(st') => Run(st', lines[1..], ctx)
      case other => other
  }

  /** The result dictionary of one item, or the exception it raised. */
  function ItemResult(lines: seq<string>, ctx: Context): Outcome<Entry>
  {
    match Run(Initial, lines, ctx)
    case Continue(st) => Return(st.hwo)
    case Stop(st) => Return(st.hwo)
    case Fail(e) => Raise(e)
  }

  /** The list `get_hwo` returns for the given items: the non-empty
      results, in item order; the first exception aborts. */
  function Items(items: seq<seq<string>>, ctx: Context): Outcome<seq<Entry>>
    decreases |items|
  {
    if items == [] then Return([])
    else
      match ItemResult(items[0], ctx)
      case Raise(e) => Raise(e)
      case Return(e) =>
        match Items(items[1..], ctx)
        case Raise(e') => Raise(e')
        case Return(rest) => Return(if IsEmpty(e) then rest else [e] + rest)
  }

  /** The inner loop of `get_hwo` over one item's lines: each line goes
      through the loop body; `break` ends the item with the dictionary
      built so far and an exception ends the whole call. */
  method ParseItem(lines: seq<string>, ctx: Context) returns (r: Outcome<Entry>)
    ensures r == ItemResult(lines, ctx)
  {
    var lc: nat := 0;
    var mode := NoMode;
    var buffer := "";
    var additional := Text("");
    var hwo := EmptyEntry;
    var i := 0;
    while i < |lines|
      invariant 0 <= i <= |lines|
      invariant Run(Initial, lines, ctx) == Run(State(lc, mode, buffer, additional, hwo), lines[i..], ctx)
    {
      assert lines[i..][1..] == lines[i + 1..];
      var next := ParseLine(State(lc, mode, buffer, additional, hwo), lines[i], ctx);
      i := i + 1;
      match next
      case Fail(e) =>
        return Raise(e);
      case Stop(st) =>
        return Return(st.hwo);
      case Continue(st) =>
        lc, mode, buffer, additional, hwo := st.lc, st.mode, st.buffer, st.additional, st.hwo;
    }
    assert lines[i..] == [];
    return Return(hwo);
  }

  /** The body of the inner loop for one line: `lc` is counted, a blank
      line is handled by the mode (and may end the pass with `continue`),
      then the line-number and header chain runs. */
  method ParseLine(st: State, line: string, ctx: Context) returns (n: Next)
    ensures n == Step(st, line, ctx)
  {
    var lc := st.lc + 1;
    var mode := st.mode;
    var buffer := st.buffer;
    var hwo := st.hwo;
    if line == "" || line == " " {
      if mode == County && lc > 4 {
        hwo := hwo.(counties := Some(Strip(buffer)));
        buffer := "";
        mode := AffectedAreas;
      } else if mode == AffectedAreas {
        hwo := hwo.(affected := Some(Strip(buffer)));
        return Continue(State(lc, NoMode, "", st.additional, hwo));
      } else if mode == SpotterActivation {
        if buffer != "" {
          hwo := hwo.(spotter := Some(Strip(buffer)));
          return Continue(State(lc, NoMode, "", st.additional, hwo));
        }
      } else {
        return Continue(st.(lc := lc));
      }
    }
    n := DispatchLine(State(lc, mode, buffer, st.additional, hwo), line, ctx);
  }

  /** The `if lc == 1 ... elif lc == 3` part of the loop body. */
  method DispatchLine(st: State, line: string, ctx: Context) returns (n: Next)
    ensures n == Dispatch(st, line, ctx)
  {
    if st.lc == 1 {
      return Continue(st);
    } else if st.lc == 2 {
      var cityState := Split(ReplaceAll(line, NwsPrefix, ""), " ");
      var state := cityState[|cityState| - 1];
      var city := Join(cityState[..|cityState| - 1], " ");
      if ctx.officeState.Some? && ctx.officeCity.Some? {
        if !ctx.includeAll && ctx.officeState.value != state {
          return Stop(st);
        }
        if !ctx.includeAll && ctx.officeCity.value != city {
          return Stop(st);
        }
      }
      return Continue(st.(hwo := st.hwo.(state := Some(state), city := Some(city))));
    } else if st.lc == 3 {
      var arr := Split(line, " ");
      if |arr| < 3 {
        return Fail(IndexError);
      }
      arr := arr[..2] + arr[3..];
      var parsed := ctx.parseDate(Join(arr, " "));
      if parsed.Raise? {
        return Fail(parsed.error);
      }
      return Continue(st.(hwo := st.hwo.(datetime := Some(parsed.value)), mode := County));
    }
    n := BodyLine(st, line);
  }

  /** The header, terminator and buffering branches of the loop body. */
  method BodyLine(st: State, line: string) returns (n: Next)
    ensures n == BodyStep(st, line)
  {
    var mode := st.mode;
    var buffer := st.buffer;
    var additional := st.additional;
    var hwo := st.hwo;
    var lower := Lower(line);
    if StartsWith(lower, ".day one") {
      mode := DayOne;
      additional := Text(ReplaceAll(ReplaceAll(line, ".DAY ONE...", ""), ".", ""));
    } else if StartsWith(lower, ".days two through seven") {
      if mode == DayOne {
        if buffer != "" {
          hwo := hwo.(day1 := Some(Section(additional, buffer)));
          buffer := "";
        }
      }
      mode := DaysTwoSeven;
      var info := ReplaceAll(ReplaceAll(line, ".DAYS TWO THROUGH SEVEN...", ""), ".", "");
      var period := Split(info, " through ");
      if |period| < 2 {
        return Fail(IndexError);
      }
      additional := Days(period[0], period[1]);
    } else if StartsWith(lower, ".spotter information statement") {
      if mode == DaysTwoSeven {
        hwo := hwo.(day27 := Some(Section(additional, buffer)));
        buffer := "";
        additional := Text("");
      }
      mode := SpotterActivation;
    } else if StartsWith(lower, "general storm motion of the day:") {
      mode := StormMotion;
    } else if StartsWith(line, "$$") {
      if mode == StormMotion {
        hwo := hwo.(motion := Some(Strip(buffer)));
      }
      return Stop(st.(hwo := hwo));
    } else if StartsWith(line, "&&") {
      if mode == StormMotion {
        hwo := hwo.(motion := Some(Strip(buffer)));
      }
      return Stop(st.(hwo := hwo));
    } else if mode == County || mode == AffectedAreas || mode == SpotterActivation {
      buffer := buffer + line + " ";
    } else if mode == DayOne || mode == DaysTwoSeven || mode == StormMotion {
      buffer := buffer + line + "\n";
    }
    return Continue(State(st.lc, mode, buffer, additional, hwo));
  }

  /** The entries already collected, in front of what the remaining items
      give. */
  function Prepend(done: seq<Entry>, r: Outcome<seq<Entry>>): Outcome<seq<Entry>>
  {
    match r
    case Raise(e) => Raise(e)
    case Return(rest) => Return(done + rest)
  }

  /** The outer loop of `get_hwo` over the items: each item is parsed and
      its dictionary appended to `data` when it is not empty. */
  method ParseItems(items: seq<seq<string>>, ctx: Context) returns (r: Outcome<seq<Entry>>)
    ensures r == Items(items, ctx)
  {
    var data: seq<Entry> := [];
    var k := 0;
    assert items[k..] == items;
    assert forall rest: seq<Entry> :: data + rest == rest;
    while k < |items|
      invariant 0 <= k <= |items|
      invariant Items(items, ctx) == Prepend(data, Items(items[k..], ctx))
    {
      assert items[k..][1..] == items[k + 1..];
      var hwo := ParseItem(items[k], ctx);
      if hwo.Raise? {
        return Raise(hwo.error);
      }
      if !IsEmpty(hwo.value) {
        assert forall rest: seq<Entry> :: data + ([hwo.value] + rest) == data + [hwo.value] + rest;
        data := data + [hwo.value];
      }
      k := k + 1;
    }
    assert items[k..] == [];
    assert data + [] == data;
    return Return(data);
  }

  // ---------------------------------------------------------------------
  // Properties of the parser

  /** Line 2: the state is the last space-free piece and the city is the
      rest of the line without the prefix, so city, one space and state
      give back that rest; a rest without a space is all state. */
  lemma OfficeNameSplit(line: string)
    ensures var rest := ReplaceAll(line, NwsPrefix, "");
      && ' ' !in OfficeName(line).1
      && (' ' in rest ==> OfficeName(line).0 + " " + OfficeName(line).1 == rest)
      && (' ' !in rest ==> OfficeName(line).0 == "" && OfficeName(line).1 == rest)
  {
    var rest := ReplaceAll(line, NwsPrefix, "");
    var parts := Split(rest, " ");
    JoinSplit(rest, " ");
    SplitCharPieces(rest, ' ');
    assert parts[|parts| - 1] in parts;
    if |parts| >= 2 {
      JoinSnoc(parts, " ");
    } else {
      assert rest == parts[0];
    }
  }

  lemma SplitThree(time: string, ampm: string, zone: string, rest: string)
    requires ' ' !in time && ' ' !in ampm && ' ' !in zone
    ensures Split(time + " " + ampm + " " + zone + " " + rest, " ") == [time, ampm, zone] + Split(rest, " ")
  {
    var r3 := zone + [' '] + rest;
    var r2 := ampm + [' '] + r3;
    assert time + " " + ampm + " " + zone + " " + rest == time + [' '] + r2;
    SplitCharHead(zone, rest, ' ');
    SplitCharHead(ampm, r3, ' ');
    SplitCharHead(time, r2, ' ');
  }

  lemma JoinTwoThenRest(time: string, ampm: string, tail: seq<string>, rest: string)
    requires |tail| >= 1 && Join(tail, " ") == rest
    ensures Join([time, ampm] + tail, " ") == time + " " + ampm + " " + rest
  {
    JoinCons(ampm, tail, " ");
    assert [time, ampm] + tail == [time] + ([ampm] + tail);
    JoinCons(time, [ampm] + tail, " ");
    assert time + " " + (ampm + " " + rest) == time + " " + ampm + " " + rest;
  }

  /** Line 3: for `HHMM AM ZONE rest` the time-zone token is dropped and
      the other pieces are rejoined by single spaces. */
  lemma DateTextDropsZone(time: string, ampm: string, zone: string, rest: string)
    requires ' ' !in time && ' ' !in ampm && ' ' !in zone
    ensures DateText(time + " " + ampm + " " + zone + " " + rest) == Some(time + " " + ampm + " " + rest)
  {
    var line := time + " " + ampm + " " + zone + " " + rest;
    SplitThree(time, ampm, zone, rest);
    var tail := Split(rest, " ");
    var arr := [time, ampm, zone] + tail;
    assert Split(line, " ") == arr;
    assert arr[..2] + arr[3..] == [time, ampm] + tail;
    JoinSplit(rest, " ");
    JoinTwoThenRest(time, ampm, tail, rest);
  }

  /** Once the office city and state are known and `include_all` is false,
      a bulletin whose line 2 names another office stops at line 2 with an
      empty result. */
  lemma MismatchStopsItem(first: string, second: string, more: seq<string>, ctx: Context)
    requires !IsBlank(second)
    requires ctx.officeCity.Some? && ctx.officeState.Some? && !ctx.includeAll
    requires OfficeName(second) != (ctx.officeCity.value, ctx.officeState.value)
    ensures ItemResult([first, second] + more, ctx) == Return(EmptyEntry)
  {
    var lines := [first, second] + more;
    var s1 := State(1, NoMode, "", Text(""), EmptyEntry);
    assert Step(Initial, first, ctx) == Continue(s1);
    assert Step(s1, second, ctx) == Stop(s1.(lc := 2));
    assert lines[1..] == [second] + more;
    assert Run(s1, lines[1..], ctx) == Stop(s1.(lc := 2));
  }

  /** ... and such an item adds nothing to the list. */
  lemma MismatchNotAppended(first: string, second: string, more: seq<string>,
                            others: seq<seq<string>>, ctx: Context)
    requires !IsBlank(second)
    requires ctx.officeCity.Some? && ctx.officeState.Some? && !ctx.includeAll
    requires OfficeName(second) != (ctx.officeCity.value, ctx.officeState.value)
    ensures Items([[first, second] + more] + others, ctx) == Items(others, ctx)
  {
    MismatchStopsItem(first, second, more, ctx);
    assert ([[first, second] + more] + others)[1..] == others;
  }

  /** Running over `a + b` is running over `a` and then, unless `a` stopped
      or raised, over `b`: no line after the one that stops an item is
      read. */
  lemma {:induction false} RunAppend(st: State, a: seq<string>, b: seq<string>, ctx: Context)
    ensures Run(st, a + b, ctx) ==
      match Run(st, a, ctx)
      case Continue(st') => Run(st', b, ctx)
      case other => other
    decreases |a|
  {
    if a == [] {
      assert a + b == b;
    } else {
      assert (a + b)[0] == a[0];
      assert (a + b)[1..] == a[1..] + b;
      match Step(st, a[0], ctx)
      case Continue(st') => RunAppend(st', a[1..], b, ctx);
      case _ =>
    }
  }

  /** A line that is not blank, not a section header and not a terminator. */
  predicate Plain(line: string) {
    && !IsBlank(line)
    && !StartsWith(Lower(line), ".day one")
    && !StartsWith(Lower(line), ".days two through seven")
    && !StartsWith(Lower(line), ".spotter information statement")
    && !StartsWith(Lower(line), "general storm motion of the day:")
    && !StartsWith(line, "$$") && !StartsWith(line, "&&")
  }

  /** The separator a mode appends after each line. */
  function Separator(m: Mode): string {
    if SpaceJoinMode(m) then " " else "\n"
  }

  /** Each line followed by the separator. */
  function Joined(lines: seq<string>, sep: string): string
  {
    if lines == [] then "" else lines[0] + sep + Joined(lines[1..], sep)
  }

  /** After line 3, plain lines in the county, affected-area and spotter
      modes are collected each followed by a space, and in the day-one,
      days-two-seven and storm-motion modes each followed by a newline. */
  lemma {:induction false} PlainLinesCollected(st: State, lines: seq<string>, ctx: Context)
    requires st.lc >= 3 && (SpaceJoinMode(st.mode) || LineJoinMode(st.mode))
    requires forall l :: l in lines ==> Plain(l)
    ensures Run(st, lines, ctx) ==
      Continue(st.(lc := st.lc + |lines|, buffer := st.buffer + Joined(lines, Separator(st.mode))))
    decreases |lines|
  {
    if lines != [] {
      var line := lines[0];
      assert line in lines;
      var st' := st.(lc := st.lc + 1, buffer := st.buffer + line + Separator(st.mode));
      assert Step(st, line, ctx) == Continue(st');
      assert forall l :: l in lines[1..] ==> l in lines;
      PlainLinesCollected(st', lines[1..], ctx);
      assert st'.buffer + Joined(lines[1..], Separator(st.mode))
          == st.buffer + Joined(lines, Separator(st.mode));
    }
  }

  /** The shape of `additional` and of the two day sections: day one keeps
      a text period, days two to seven a start/end pair. */
  predicate Shaped(st: State) {
    && (st.mode == DayOne ==> st.additional.Text?)
    && (st.mode == DaysTwoSeven ==> st.additional.Days?)
    && (st.hwo.day1.Some? ==> st.hwo.day1.value.period.Text?)
    && (st.hwo.day27.Some? ==> st.hwo.day27.value.period.Days?)
  }

  lemma BodyShaped(st: State, line: string)
    requires Shaped(st)
    ensures !BodyStep(st, line).Fail? ==> Shaped(BodyStep(st, line).st)
  {
    var lower := Lower(line);
    if StartsWith(lower, ".day one") {
    } else if StartsWith(lower, ".days two through seven") {
      var st1 := if st.mode == DayOne && st.buffer != ""
                 then st.(hwo := st.hwo.(day1 := Some(Section(st.additional, st.buffer))), buffer := "")
                 else st;
      assert Shaped(st1);
    } else if StartsWith(lower, ".spotter information statement") {
    } else if StartsWith(lower, "general storm motion of the day:") {
    } else if StartsWith(line, "$$") || StartsWith(line, "&&") {
    } else {
      assert BodyStep(st, line) == Continue(Collect(st, line));
    }
  }

  lemma DispatchShaped(st: State, line: string, ctx: Context)
    requires Shaped(st)
    ensures !Dispatch(st, line, ctx).Fail? ==> Shaped(Dispatch(st, line, ctx).st)
  {
    if st.lc == 0 || st.lc > 3 {
      DispatchBodyShaped(st, line, ctx);
    } else {
      DispatchEarlyShaped(st, line, ctx);
    }
  }

  lemma DispatchBodyShaped(st: State, line: string, ctx: Context)
    requires Shaped(st) && (st.lc == 0 || st.lc > 3)
    ensures !Dispatch(st, line, ctx).Fail? ==> Shaped(Dispatch(st, line, ctx).st)
  {
    DispatchBody(st, line, ctx);
    BodyShaped(st, line);
  }

  lemma DispatchEarlyShaped(st: State, line: string, ctx: Context)
    requires Shaped(st) && 1 <= st.lc <= 3
    ensures !Dispatch(st, line, ctx).Fail? ==> Shaped(Dispatch(st, line, ctx).st)
  {
    DispatchEarly(st, line, ctx);
    OfficeShaped(st, line, ctx);
    DateShaped(st, line, ctx);
  }

  /** Lines 1 to 3 go to the skip, office and date steps. */
  lemma DispatchEarly(st: State, line: string, ctx: Context)
    requires 1 <= st.lc <= 3
    ensures Dispatch(st, line, ctx) ==
      if st.lc == 1 then Continue(st)
      else if st.lc == 2 then OfficeStep(st, line, ctx)
      else DateStep(st, line, ctx)
  {
  }

  lemma OfficeShaped(st: State, line: string, ctx: Context)
    requires Shaped(st)
    ensures !OfficeStep(st, line, ctx).Fail? ==> Shaped(OfficeStep(st, line, ctx).st)
  {
  }

  lemma DateShaped(st: State, line: string, ctx: Context)
    requires Shaped(st)
    ensures !DateStep(st, line, ctx).Fail? ==> Shaped(DateStep(st, line, ctx).st)
  {
  }

  lemma StepShaped(st: State, line: string, ctx: Context)
    requires Shaped(st)
    ensures !Step(st, line, ctx).Fail? ==> Shaped(Step(st, line, ctx).st)
  {
    var st0 := st.(lc := st.lc + 1);
    if IsBlank(line) && st0.mode == County && st0.lc > 4 {
      DispatchShaped(st0.(hwo := st0.hwo.(counties := Some(Strip(st0.buffer))), buffer := "", mode := AffectedAreas),
                     line, ctx);
    } else {
      DispatchShaped(st0, line, ctx);
    }
  }

  lemma {:induction false} RunShaped(st: State, lines: seq<string>, ctx: Context)
    requires Shaped(st)
    ensures !Run(st, lines, ctx).Fail? ==> Shaped(Run(st, lines, ctx).st)
    decreases |lines|
  {
    if lines != [] {
      StepShaped(st, lines[0], ctx);
      match Step(st, lines[0], ctx)
      case Continue(st') => RunShaped(st', lines[1..], ctx);
      case _ =>
    }
  }

  /** Every result has `day1.period` as text and `day27.period` as a
      `{start, end}` pair. */
  lemma EntrySectionsShaped(lines: seq<string>, ctx: Context)
    ensures ItemResult(lines, ctx).Return? ==>
      var e := ItemResult(lines, ctx).value;
      && (e.day1.Some? ==> e.day1.value.period.Text?)
      && (e.day27.Some? ==> e.day27.value.period.Days?)
  {
    RunShaped(Initial, lines, ctx);
  }

  /** `get_hwo` returns at most one result per item, and only non-empty
      ones. */
  lemma {:induction false} ItemsNonEmpty(items: seq<seq<string>>, ctx: Context)
    ensures Items(items, ctx).Return? ==>
      |Items(items, ctx).value| <= |items| &&
      forall e :: e in Items(items, ctx).value ==> !IsEmpty(e)
    decreases |items|
  {
    if items != [] {
      ItemsNonEmpty(items[1..], ctx);
    }
  }

  /** A blank line: in county mode past line 4 the counties are stored and
      the affected-area mode starts (the blank line itself then enters the
      buffer); in affected-area mode the affected areas are stored and the
      mode reset; in spotter mode the spotter text is stored only when the
      buffer holds something; in every other case the line is skipped. */
  lemma BlankLine(st: State, line: string, ctx: Context)
    requires IsBlank(line) && st.lc >= 3
    ensures st.mode == County && st.lc == 3 ==> (Step(st, line, ctx) == Continue(st.(lc := 4)))
    ensures st.mode == County && st.lc >= 4 ==>
      (Step(st, line, ctx) ==
       Continue(State(st.lc + 1, AffectedAreas, line + " ", st.additional,
                      st.hwo.(counties := Some(Strip(st.buffer))))))
    ensures st.mode == AffectedAreas ==>
      (Step(st, line, ctx) ==
       Continue(State(st.lc + 1, NoMode, "", st.additional, st.hwo.(affected := Some(Strip(st.buffer))))))
    ensures st.mode == SpotterActivation && st.buffer != "" ==>
      (Step(st, line, ctx) ==
       Continue(State(st.lc + 1, NoMode, "", st.additional, st.hwo.(spotter := Some(Strip(st.buffer))))))
    ensures st.mode == SpotterActivation && st.buffer == "" ==>
      (Step(st, line, ctx) == Continue(st.(lc := st.lc + 1, buffer := line + " ")))
    ensures LineJoinMode(st.mode) || st.mode == NoMode ==>
      (Step(st, line, ctx) == Continue(st.(lc := st.lc + 1)))
  {
    if st.mode == County && st.lc >= 4 {
      BlankCounty(st, line, ctx);
    } else if st.mode == SpotterActivation && st.buffer == "" {
      BlankEmptySpotter(st, line, ctx);
    } else {
      BlankStored(st, line, ctx);
    }
  }

  lemma BlankCounty(st: State, line: string, ctx: Context)
    requires IsBlank(line) && st.mode == County && st.lc >= 4
    ensures Step(st, line, ctx) ==
      Continue(State(st.lc + 1, AffectedAreas, line + " ", st.additional,
                     st.hwo.(counties := Some(Strip(st.buffer)))))
  {
    var st1 := State(st.lc + 1, AffectedAreas, "", st.additional, st.hwo.(counties := Some(Strip(st.buffer))));
    BlankCountyDispatch(st, line, ctx);
    DispatchBody(st1, line, ctx);
    ShortLineBody(st1, line);
    assert "" + line + " " == line + " ";
  }

  lemma BlankCountyDispatch(st: State, line: string, ctx: Context)
    requires IsBlank(line) && st.mode == County && st.lc >= 4
    ensures Step(st, line, ctx) ==
      Dispatch(State(st.lc + 1, AffectedAreas, "", st.additional, st.hwo.(counties := Some(Strip(st.buffer)))),
               line, ctx)
  {
  }

  /** Past line 3 the line-number chain falls through to the body. */
  lemma DispatchBody(st: State, line: string, ctx: Context)
    requires st.lc == 0 || st.lc > 3
    ensures Dispatch(st, line, ctx) == BodyStep(st, line)
  {
  }

  lemma BlankEmptySpotter(st: State, line: string, ctx: Context)
    requires IsBlank(line) && st.lc >= 3 && st.mode == SpotterActivation && st.buffer == ""
    ensures Step(st, line, ctx) == Continue(st.(lc := st.lc + 1, buffer := line + " "))
  {
    ShortLineBody(st.(lc := st.lc + 1), line);
  }

  /** The blank-line cases that never reach the line-number chain. */
  lemma BlankStored(st: State, line: string, ctx: Context)
    requires IsBlank(line) && st.lc >= 3
    requires !(st.mode == County && st.lc >= 4) && !(st.mode == SpotterActivation && st.buffer == "")
    ensures st.mode == County ==> Step(st, line, ctx) == Continue(st.(lc := st.lc + 1))
    ensures st.mode == AffectedAreas ==>
      Step(st, line, ctx) ==
      Continue(State(st.lc + 1, NoMode, "", st.additional, st.hwo.(affected := Some(Strip(st.buffer)))))
    ensures st.mode == SpotterActivation ==>
      Step(st, line, ctx) ==
      Continue(State(st.lc + 1, NoMode, "", st.additional, st.hwo.(spotter := Some(Strip(st.buffer)))))
    ensures LineJoinMode(st.mode) || st.mode == NoMode ==> Step(st, line, ctx) == Continue(st.(lc := st.lc + 1))
  {
  }

  /** A line of at most one character after line 3 is neither header nor
      terminator. */
  lemma ShortLineBody(st: State, line: string)
    requires |line| <= 1
    ensures BodyStep(st, line) == Continue(Collect(st, line))
  {
    assert |Lower(line)| <= 1;
  }

  /** The days-two-through-seven header commits day one only from day-one
      mode with a non-empty buffer, and splits its description on
      " through " into start and end day. */
  lemma DaysHeader(st: State, line: string, ctx: Context)
    requires st.lc >= 3 && StartsWith(Lower(line), ".days two through seven")
    ensures var period := Split(DaysInfo(line), " through ");
      && (|period| < 2 ==> Step(st, line, ctx) == Fail(IndexError))
      && (|period| >= 2 ==>
           Step(st, line, ctx).Continue? &&
           Step(st, line, ctx).st.mode == DaysTwoSeven &&
           Step(st, line, ctx).st.additional == Days(period[0], period[1]) &&
           Step(st, line, ctx).st.hwo.day1 ==
             (if st.mode == DayOne && st.buffer != "" then Some(Section(st.additional, st.buffer))
              else st.hwo.day1))
  {
    PrefixesDiffer(Lower(line), ".days two through seven", ".day one", 4);
    assert !IsBlank(line);
  }

  /** The spotter header commits days two to seven exactly when it follows
      that mode, and starts the spotter mode. */
  lemma SpotterHeader(st: State, line: string, ctx: Context)
    requires st.lc >= 3 && StartsWith(Lower(line), ".spotter information statement")
    ensures Step(st, line, ctx).Continue?
    ensures Step(st, line, ctx).st.mode == SpotterActivation
    ensures Step(st, line, ctx).st.hwo.day27 ==
      (if st.mode == DaysTwoSeven then Some(Section(st.additional, st.buffer)) else st.hwo.day27)
  {
    PrefixesDiffer(Lower(line), ".spotter information statement", ".day one", 1);
    PrefixesDiffer(Lower(line), ".spotter information statement", ".days two through seven", 1);
    assert !IsBlank(line);
  }

  lemma PrefixesDiffer(s: string, p: string, q: string, k: nat)
    requires k < |p| && k < |q| && p[k] != q[k] && StartsWith(s, p)
    ensures !StartsWith(s, q)
  {
    assert s[k] == p[k];
  }

  /** A line starting with `$$` or `&&` ends the item, storing the storm
      motion only in storm-motion mode. */
  lemma Terminator(st: State, line: string, ctx: Context)
    requires st.lc >= 3 && (StartsWith(line, "$$") || StartsWith(line, "&&"))
    ensures Step(st, line, ctx) ==
      Stop(if st.mode == StormMotion
           then st.(lc := st.lc + 1, hwo := st.hwo.(motion := Some(Strip(st.buffer))))
           else st.(lc := st.lc + 1))
  {
    var lower := Lower(line);
    assert lower[0] == line[0] && (line[0] == '$' || line[0] == '&');
    assert !StartsWith(lower, ".day one") && !StartsWith(lower, ".days two through seven");
    assert !StartsWith(lower, ".spotter information statement");
    assert !StartsWith(lower, "general storm motion of the day:");
    assert !IsBlank(line);
  }
}
