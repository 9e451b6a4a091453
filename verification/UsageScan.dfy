/** Counting what the transcripts hold, all of it or from one day on, and adding that to a history. */
module UsageScan {
  import opened Wrappers

  datatype Buckets = Buckets(input: nat, output: nat, cacheRead: nat, cacheWrite: nat)

  const NONE := Buckets(0, 0, 0, 0)

  function Sum(a: Buckets, b: Buckets): Buckets {
    Buckets(a.input + b.input, a.output + b.output, a.cacheRead + b.cacheRead, a.cacheWrite + b.cacheWrite)
  }

  predicate Any(b: Buckets) { b.input + b.output + b.cacheRead + b.cacheWrite > 0 }

  type Hour = h: int | 0 <= h < 24

  /** An assistant's line that could be read, as far as it is counted. */
  datatype Turn =
    Turn(day: int, session: Option<string>, model: Option<string>, usage: Buckets, tools: nat, hour: Option<Hour>)

  /** A line: the day its text shows, whether it is only bookkeeping, and the turn it holds. */
  datatype Line = Line(day: Option<int>, bookkeeping: bool, turn: Option<Turn>)

  /** A transcript, with the day it was last written when that is known. */
  datatype File = File(written: Option<int>, lines: seq<Line>)

  datatype Window = All | From(day: int) | Before(day: int)

  predicate In(w: Window, day: int) {
    match w
    case All => true
    case From(d) => day >= d
    case Before(d) => day < d
  }

  type Hours = s: seq<nat> | |s| == 24 witness [0, 0, 0, 0, 0, 0, 0, 0, 0, 0, 0, 0, 0, 0, 0, 0, 0, 0, 0, 0, 0, 0, 0, 0]

  /** What is counted line by line. */
  datatype Counts =
    Counts(perDay: map<int, nat>, perHour: Hours, models: map<string, Buckets>, messages: nat, tools: nat)

  function NoHours(): Hours { seq(24, i => 0) }

  function Zero(): Counts { Counts(map[], NoHours(), map[], 0, 0) }

  function Times<K>(m: map<K, nat>, k: K): nat { if k in m then m[k] else 0 }

  function Used(m: map<string, Buckets>, k: string): Buckets { if k in m then m[k] else NONE }

  function CountDay(c: Counts, day: int): Counts {
    c.(perDay := c.perDay[day := Times(c.perDay, day) + 1], messages := c.messages + 1)
  }

  function CountModel(c: Counts, model: string, b: Buckets): Counts {
    c.(models := c.models[model := Sum(Used(c.models, model), b)])
  }

  function CountTools(c: Counts, n: nat): Counts { c.(tools := c.tools + n) }

  function CountHour(c: Counts, h: Hour): Counts { c.(perHour := c.perHour[h := c.perHour[h] + 1]) }

  function CountTurn(c: Counts, t: Turn): Counts {
    var c1 := if Any(t.usage) && t.model.Some? then CountModel(c, t.model.value, t.usage) else c;
    var c2 := CountTools(c1, t.tools);
    if t.hour.Some? then CountHour(c2, t.hour.value) else c2
  }

  function CountLine(c: Counts, l: Line, w: Window): Counts {
    var c1 := if l.day.Some? && In(w, l.day.value) && !l.bookkeeping then CountDay(c, l.day.value) else c;
    if l.turn.Some? && In(w, l.turn.value.day) then CountTurn(c1, l.turn.value) else c1
  }

  function CountLines(c: Counts, lines: seq<Line>, w: Window): Counts {
    if lines == [] then c else CountLine(CountLines(c, lines[..|lines| - 1], w), lines[|lines| - 1], w)
  }

  /** The day each session's first turn was on. */
  type Firsts = map<string, int>

  function SeeLine(m: Firsts, l: Line): Firsts {
    if l.turn.Some? && l.turn.value.session.Some? then
      var id, day := l.turn.value.session.value, l.turn.value.day;
      m[id := if id in m && m[id] <= day then m[id] else day]
    else m
  }

  function SeeLines(m: Firsts, lines: seq<Line>): Firsts {
    if lines == [] then m else SeeLine(SeeLines(m, lines[..|lines| - 1]), lines[|lines| - 1])
  }

  function CountIn(m: Firsts, w: Window): nat { |set id | id in m && In(w, m[id])| }

  /** Not written since before the window: passed over without being read. */
  predicate Stale(f: File, w: Window) { w.From? && f.written.Some? && f.written.value < w.day }

  function CountFiles(files: seq<File>, w: Window): Counts {
    if files == [] then Zero()
    else
      var f, c := files[|files| - 1], CountFiles(files[..|files| - 1], w);
      if Stale(f, w) then c else CountLines(c, f.lines, w)
  }

  function SeeFiles(files: seq<File>, w: Window): Firsts {
    if files == [] then map[]
    else
      var f, m := files[|files| - 1], SeeFiles(files[..|files| - 1], w);
      if Stale(f, w) then m else SeeLines(m, f.lines)
  }

  datatype Totals = Totals(counts: Counts, sessions: nat)

  function Scan(files: seq<File>, w: Window): Totals {
    Totals(CountFiles(files, w), CountIn(SeeFiles(files, w), w))
  }

  // ----- adding up -----

  function AddTimes<K>(a: map<K, nat>, b: map<K, nat>): map<K, nat> {
    map k | k in a.Keys + b.Keys :: Times(a, k) + Times(b, k)
  }

  function AddUsed(a: map<string, Buckets>, b: map<string, Buckets>): map<string, Buckets> {
    map k | k in a.Keys + b.Keys :: Sum(Used(a, k), Used(b, k))
  }

  function AddHours(a: Hours, b: Hours): Hours { seq(24, i requires 0 <= i < 24 => a[i] + b[i]) }

  function Plus(a: Counts, b: Counts): Counts {
    Counts(AddTimes(a.perDay, b.perDay), AddHours(a.perHour, b.perHour), AddUsed(a.models, b.models),
           a.messages + b.messages, a.tools + b.tools)
  }

  function Together(a: Totals, b: Totals): Totals { Totals(Plus(a.counts, b.counts), a.sessions + b.sessions) }

  lemma TimesGoEither<K>(a: map<K, nat>, b: map<K, nat>, k: K)
    ensures AddTimes(a, b)[k := Times(AddTimes(a, b), k) + 1] == AddTimes(a[k := Times(a, k) + 1], b)
    ensures AddTimes(a, b)[k := Times(AddTimes(a, b), k) + 1] == AddTimes(a, b[k := Times(b, k) + 1])
  {
    TimesGoFirst(a, b, k);
    TimesGoFirst(b, a, k);
    TimesEitherWay(a, b);
    TimesEitherWay(a, b[k := Times(b, k) + 1]);
    hide AddTimes, Times;
  }

  lemma TimesGoFirst<K>(a: map<K, nat>, b: map<K, nat>, k: K)
    ensures AddTimes(a, b)[k := Times(AddTimes(a, b), k) + 1] == AddTimes(a[k := Times(a, k) + 1], b)
  {
  }

  lemma TimesEitherWay<K>(a: map<K, nat>, b: map<K, nat>)
    ensures AddTimes(a, b) == AddTimes(b, a)
  {
  }

  lemma UsedGoesEither(a: map<string, Buckets>, b: map<string, Buckets>, k: string, u: Buckets)
    ensures AddUsed(a, b)[k := Sum(Used(AddUsed(a, b), k), u)] == AddUsed(a[k := Sum(Used(a, k), u)], b)
  {
    var x, y := AddUsed(a, b)[k := Sum(Used(AddUsed(a, b), k), u)], AddUsed(a[k := Sum(Used(a, k), u)], b);
    assert x.Keys == y.Keys;
    assert x[k] == y[k];
    hide Sum;
    assert forall j :: j in x && j != k ==> x[j] == y[j];
  }

  lemma AddedEitherWay(a: map<string, Buckets>, b: map<string, Buckets>)
    ensures AddUsed(a, b) == AddUsed(b, a)
  {
    assert AddUsed(a, b).Keys == AddUsed(b, a).Keys;
  }

  lemma DayGoesEither(a: Counts, b: Counts, day: int)
    ensures CountDay(Plus(a, b), day) == Plus(CountDay(a, day), b) == Plus(a, CountDay(b, day))
  {
    hide AddHours, AddUsed, AddTimes, Times;
    TimesGoEither(a.perDay, b.perDay, day);
  }

  lemma ModelGoesEither(a: Counts, b: Counts, model: string, u: Buckets)
    ensures CountModel(Plus(a, b), model, u) == Plus(CountModel(a, model, u), b) == Plus(a, CountModel(b, model, u))
  {
    hide AddHours, AddTimes, AddUsed, Used, Sum;
    UsedGoesEither(a.models, b.models, model, u);
    UsedGoesEither(b.models, a.models, model, u);
    AddedEitherWay(a.models, b.models);
    AddedEitherWay(a.models, CountModel(b, model, u).models);
  }

  lemma ToolsGoEither(a: Counts, b: Counts, n: nat)
    ensures CountTools(Plus(a, b), n) == Plus(CountTools(a, n), b) == Plus(a, CountTools(b, n))
  {
    hide AddHours, AddTimes, AddUsed;
  }

  lemma HourGoesEither(a: Counts, b: Counts, h: Hour)
    ensures CountHour(Plus(a, b), h) == Plus(CountHour(a, h), b) == Plus(a, CountHour(b, h))
  {
    hide AddTimes, AddUsed;
    assert CountHour(Plus(a, b), h).perHour == Plus(CountHour(a, h), b).perHour == Plus(a, CountHour(b, h)).perHour;
  }

  lemma TurnGoesEither(a: Counts, b: Counts, t: Turn)
    ensures CountTurn(Plus(a, b), t) == Plus(CountTurn(a, t), b) == Plus(a, CountTurn(b, t))
  {
    hide Plus, CountModel, CountTools, CountHour;
    var a1, b1 := a, b;
    if Any(t.usage) && t.model.Some? {
      ModelGoesEither(a, b, t.model.value, t.usage);
      a1, b1 := CountModel(a, t.model.value, t.usage), CountModel(b, t.model.value, t.usage);
    }
    ToolsGoEither(a1, b, t.tools);
    ToolsGoEither(a, b1, t.tools);
    if t.hour.Some? {
      HourGoesEither(CountTools(a1, t.tools), b, t.hour.value);
      HourGoesEither(a, CountTools(b1, t.tools), t.hour.value);
    }
  }

  /** A line is counted before the cut or from it on, each of its two days by itself. */
  lemma LineSplits(a: Counts, b: Counts, l: Line, cut: int)
    ensures CountLine(Plus(a, b), l, All) == Plus(CountLine(a, l, Before(cut)), CountLine(b, l, From(cut)))
  {
    hide Plus, CountDay, CountTurn;
    var a1, b1 := a, b;
    if l.day.Some? && !l.bookkeeping {
      DayGoesEither(a, b, l.day.value);
      if l.day.value < cut { a1 := CountDay(a, l.day.value); } else { b1 := CountDay(b, l.day.value); }
    }
    if l.turn.Some? { TurnGoesEither(a1, b1, l.turn.value); }
  }

  lemma {:induction false} LinesSplit(a: Counts, b: Counts, lines: seq<Line>, cut: int)
    ensures CountLines(Plus(a, b), lines, All)
            == Plus(CountLines(a, lines, Before(cut)), CountLines(b, lines, From(cut)))
  {
    hide Plus, CountLine;
    if lines != [] {
      var rest := lines[..|lines| - 1];
      LinesSplit(a, b, rest, cut);
      LineSplits(CountLines(a, rest, Before(cut)), CountLines(b, rest, From(cut)), lines[|lines| - 1], cut);
    }
  }

  // ----- what is counted -----

  function SumOver(lines: seq<Line>, f: Line -> nat): nat {
    if lines == [] then 0 else SumOver(lines[..|lines| - 1], f) + f(lines[|lines| - 1])
  }

  /** A message of that day: any line that shows it, but bookkeeping. */
  predicate IsOn(l: Line, day: int) { l.day == Some(day) && !l.bookkeeping }

  predicate Counted(l: Line, w: Window) { l.turn.Some? && In(w, l.turn.value.day) }

  predicate AtHour(l: Line, w: Window, h: Hour) { Counted(l, w) && l.turn.value.hour == Some(h) }

  function SpentOn(l: Line, w: Window, model: string): Buckets {
    if Counted(l, w) && l.turn.value.model == Some(model) then l.turn.value.usage else NONE
  }

  /** A message in the window, whatever its day. */
  predicate Shown(l: Line, w: Window) { l.day.Some? && In(w, l.day.value) && !l.bookkeeping }

  /**
   Each counter is a sum over the lines: the messages are the lines that show a day, a day's those that
   show that one, bookkeeping apart; an hour's is the number of its turns, a model's the tokens of its.
   */
  lemma {:induction false} CountersAreSums(c: Counts, lines: seq<Line>, w: Window, day: int, h: Hour, model: string)
    ensures var d := CountLines(c, lines, w);
      && d.messages == c.messages + SumOver(lines, l => if Shown(l, w) then 1 else 0)
      && Times(d.perDay, day) == Times(c.perDay, day) + SumOver(lines, l => if In(w, day) && IsOn(l, day) then 1 else 0)
      && d.perHour[h] == c.perHour[h] + SumOver(lines, l => if AtHour(l, w, h) then 1 else 0)
      && d.tools == c.tools + SumOver(lines, l => if Counted(l, w) then l.turn.value.tools else 0)
      && Used(d.models, model).input == Used(c.models, model).input + SumOver(lines, l => SpentOn(l, w, model).input)
      && Used(d.models, model).output == Used(c.models, model).output + SumOver(lines, l => SpentOn(l, w, model).output)
      && Used(d.models, model).cacheRead
           == Used(c.models, model).cacheRead + SumOver(lines, l => SpentOn(l, w, model).cacheRead)
      && Used(d.models, model).cacheWrite
           == Used(c.models, model).cacheWrite + SumOver(lines, l => SpentOn(l, w, model).cacheWrite)
  {
    if lines != [] {
      var rest, l := lines[..|lines| - 1], lines[|lines| - 1];
      CountersAreSums(c, rest, w, day, h, model);
      OneLineCounts(CountLines(c, rest, w), l, w, day, h, model);
      hide CountLine, Times, Used, In, IsOn, Shown, Counted, AtHour, SpentOn;
    }
  }

  lemma OneLineCounts(c: Counts, l: Line, w: Window, day: int, h: Hour, model: string)
    ensures var d := CountLine(c, l, w);
      && d.messages == c.messages + (if Shown(l, w) then 1 else 0)
      && Times(d.perDay, day) == Times(c.perDay, day) + (if In(w, day) && IsOn(l, day) then 1 else 0)
      && d.perHour[h] == c.perHour[h] + (if AtHour(l, w, h) then 1 else 0)
      && d.tools == c.tools + (if Counted(l, w) then l.turn.value.tools else 0)
      && Used(d.models, model) == Sum(Used(c.models, model), SpentOn(l, w, model))
      && (Listed(c, day, model) ==> Listed(d, day, model))
  {
    hide CountDay, CountTurn, Times, Used, Sum;
    var c1 := c;
    if l.day.Some? && In(w, l.day.value) && !l.bookkeeping {
      OneDayCounts(c, l.day.value, day);
      c1 := CountDay(c, l.day.value);
    }
    assert c1.perHour == c.perHour && c1.tools == c.tools && c1.models == c.models;
    if l.turn.Some? && In(w, l.turn.value.day) {
      OneTurnCounts(c1, l.turn.value, h, model);
    }
    NothingAdded(Used(c.models, model));
  }

  /** What is in the maps was counted. */
  predicate Listed(c: Counts, day: int, model: string) {
    (day in c.perDay ==> c.perDay[day] > 0) && (model in c.models ==> Any(c.models[model]))
  }

  lemma OneDayCounts(c: Counts, on: int, day: int)
    ensures var d := CountDay(c, on);
      && d.messages == c.messages + 1 && (day in d.perDay ==> day in c.perDay || d.perDay[day] > 0)
      && (day in c.perDay && c.perDay[day] > 0 ==> day in d.perDay && d.perDay[day] > 0)
      && Times(d.perDay, day) == Times(c.perDay, day) + (if on == day then 1 else 0)
      && d.perHour == c.perHour && d.tools == c.tools && d.models == c.models
  {
  }

  lemma NothingAdded(b: Buckets)
    ensures Sum(b, NONE) == b
  {
  }

  lemma OneTurnCounts(c: Counts, t: Turn, h: Hour, model: string)
    ensures var d := CountTurn(c, t);
      && d.perDay == c.perDay && d.messages == c.messages
      && d.perHour[h] == c.perHour[h] + (if t.hour == Some(h) then 1 else 0)
      && d.tools == c.tools + t.tools
      && Used(d.models, model) == Sum(Used(c.models, model), if t.model == Some(model) then t.usage else NONE)
      && ((model in c.models ==> Any(c.models[model])) ==> model in d.models ==> Any(d.models[model]))
  {
    hide CountModel, CountHour, Used, Sum;
    NothingAdded(Used(c.models, model));
    if t.model.Some? { OneModelCounts(c, t.model.value, t.usage, model); }
    if !Any(t.usage) { assert t.usage == NONE; }
    var c1 := if Any(t.usage) && t.model.Some? then CountModel(c, t.model.value, t.usage) else c;
    if t.hour.Some? { OneHourCounts(CountTools(c1, t.tools), t.hour.value, h); }
  }

  lemma OneModelCounts(c: Counts, of: string, u: Buckets, model: string)
    ensures var d := CountModel(c, of, u);
      && Used(d.models, model) == (if of == model then Sum(Used(c.models, model), u) else Used(c.models, model))
      && d.perDay == c.perDay && d.perHour == c.perHour && d.tools == c.tools && d.messages == c.messages
      && ((model in c.models ==> Any(c.models[model])) && Any(u) ==> model in d.models ==> Any(d.models[model]))
  {
  }

  lemma OneHourCounts(c: Counts, at: Hour, h: Hour)
    ensures var d := CountHour(c, at);
      && d.perHour[h] == c.perHour[h] + (if at == h then 1 else 0)
      && d.perDay == c.perDay && d.models == c.models && d.tools == c.tools && d.messages == c.messages
  {
  }

  // ----- files and their times -----

  /** A file passed over holds nothing that would be counted. */
  predicate StaleHolds(f: File, cut: int) {
    Stale(f, From(cut)) ==>
      forall i :: 0 <= i < |f.lines| ==>
        && (f.lines[i].day.Some? && !f.lines[i].bookkeeping ==> f.lines[i].day.value < cut)
        && (f.lines[i].turn.Some? ==> f.lines[i].turn.value.day < cut)
  }

  /** None is of a later day than it was last written on: enough for that, whatever the cut. */
  predicate TimesHold(f: File) {
    f.written.Some? ==>
      forall i :: 0 <= i < |f.lines| ==>
        && (f.lines[i].day.Some? ==> f.lines[i].day.value <= f.written.value)
        && (f.lines[i].turn.Some? ==> f.lines[i].turn.value.day <= f.written.value)
  }

  predicate AllStaleHold(files: seq<File>, cut: int) { forall i :: 0 <= i < |files| ==> StaleHolds(files[i], cut) }

  lemma TimesAreEnough(files: seq<File>, cut: int)
    requires forall i :: 0 <= i < |files| ==> TimesHold(files[i])
    ensures AllStaleHold(files, cut)
  {
  }

  lemma {:induction false} NothingFrom(c: Counts, lines: seq<Line>, cut: int)
    requires forall i :: 0 <= i < |lines| ==>
               && (lines[i].day.Some? && !lines[i].bookkeeping ==> lines[i].day.value < cut)
               && (lines[i].turn.Some? ==> lines[i].turn.value.day < cut)
    ensures CountLines(c, lines, From(cut)) == c
  {
    hide CountDay, CountTurn;
    if lines != [] { NothingFrom(c, lines[..|lines| - 1], cut); }
  }

  lemma NothingPlusNothing()
    ensures Plus(Zero(), Zero()) == Zero()
  {
    assert AddHours(NoHours(), NoHours()) == NoHours();
  }

  /** Line by line, what is before the cut and what is from it on make up everything. */
  lemma {:induction false} FilesSplit(files: seq<File>, cut: int)
    requires AllStaleHold(files, cut)
    ensures CountFiles(files, All) == Plus(CountFiles(files, Before(cut)), CountFiles(files, From(cut)))
  {
    hide Plus, CountLines;
    if files == [] {
      NothingPlusNothing();
    } else {
      var rest, f := files[..|files| - 1], files[|files| - 1];
      assert StaleHolds(f, cut);
      FilesSplit(rest, cut);
      var a, b := CountFiles(rest, Before(cut)), CountFiles(rest, From(cut));
      LinesSplit(a, b, f.lines, cut);
      if Stale(f, From(cut)) { NothingFrom(b, f.lines, cut); }
    }
  }

  // ----- sessions -----

  predicate TurnOf(l: Line, id: string, day: int) {
    l.turn.Some? && l.turn.value.session == Some(id) && l.turn.value.day == day
  }

  predicate HasTurn(lines: seq<Line>, id: string, day: int) {
    exists i :: 0 <= i < |lines| && TurnOf(lines[i], id, day)
  }

  lemma OneMoreTurn(lines: seq<Line>, id: string, day: int)
    requires lines != []
    ensures HasTurn(lines, id, day) <==> HasTurn(lines[..|lines| - 1], id, day) || TurnOf(lines[|lines| - 1], id, day)
  {
    hide TurnOf;
    var n := |lines| - 1;
    if i :| 0 <= i < n && TurnOf(lines[..n][i], id, day) { assert TurnOf(lines[i], id, day); }
    if i :| 0 <= i < n && TurnOf(lines[i], id, day) { assert TurnOf(lines[..n][i], id, day); }
  }

  /** The least day of a session's turns among these lines, and that it had before. */
  predicate IsFirst(m: Firsts, lines: seq<Line>, seen: Firsts, id: string) {
    && (id in m ==> id in seen && seen[id] <= m[id])
    && (id in seen ==> (id in m && seen[id] == m[id]) || HasTurn(lines, id, seen[id]))
  }

  lemma {:induction false} SeenAre(m: Firsts, lines: seq<Line>, id: string)
    ensures IsFirst(m, lines, SeeLines(m, lines), id)
    ensures forall day :: HasTurn(lines, id, day) ==> id in SeeLines(m, lines) && SeeLines(m, lines)[id] <= day
  {
    if lines != [] {
      var rest := lines[..|lines| - 1];
      SeenAre(m, rest, id);
      hide HasTurn;
      forall day ensures HasTurn(lines, id, day) <==> HasTurn(rest, id, day) || TurnOf(lines[|lines| - 1], id, day) {
        OneMoreTurn(lines, id, day);
      }
      assert id in SeeLines(m, lines) ==> SeeLines(m, lines)[id] == SeeLines(m, lines)[id];
    } else {
      NoTurns(id);
    }
  }

  lemma NoTurns(id: string)
    ensures forall day :: !HasTurn([], id, day)
  {
  }

  /** A turn of the session on that day in a file that is read. */
  predicate ReadTurn(files: seq<File>, w: Window, i: nat, id: string, day: int) {
    i < |files| && !Stale(files[i], w) && HasTurn(files[i].lines, id, day)
  }

  /** The day a scan has for a session is that of its first turn in the files it reads. */
  lemma {:induction false} FirstsAre(files: seq<File>, w: Window, id: string)
    ensures id in SeeFiles(files, w) ==> exists i: nat :: ReadTurn(files, w, i, id, SeeFiles(files, w)[id])
    ensures forall i: nat, day :: ReadTurn(files, w, i, id, day) ==>
                                    id in SeeFiles(files, w) && SeeFiles(files, w)[id] <= day
  {
    if files != [] {
      var n := |files| - 1;
      var rest, f := files[..n], files[n];
      FirstsAre(rest, w, id);
      hide HasTurn, SeeLines, Stale;
      forall i: nat, day | i < n ensures ReadTurn(files, w, i, id, day) <==> ReadTurn(rest, w, i, id, day) { }
      if !Stale(f, w) {
        var m := SeeFiles(rest, w);
        SeenAre(m, f.lines, id);
        if id in SeeLines(m, f.lines) {
          var first := SeeLines(m, f.lines)[id];
          if HasTurn(f.lines, id, first) {
            assert ReadTurn(files, w, n, id, first);
          } else {
            var i: nat :| ReadTurn(rest, w, i, id, first);
            assert ReadTurn(files, w, i, id, first);
          }
        }
      } else if id in SeeFiles(rest, w) {
        var i: nat :| ReadTurn(rest, w, i, id, SeeFiles(rest, w)[id]);
        assert ReadTurn(files, w, i, id, SeeFiles(rest, w)[id]);
      }
    }
  }

  /**
   A session astride the cut: some turn before it, none of those in a file that is read, and a turn
   from it on in one that is.
   */
  ghost predicate Astride(files: seq<File>, cut: int, id: string) {
    && (exists i: nat, day :: day >= cut && ReadTurn(files, From(cut), i, id, day))
    && (exists i: nat, day :: day < cut && ReadTurn(files, All, i, id, day))
    && (forall i: nat, day :: ReadTurn(files, From(cut), i, id, day) ==> day >= cut)
  }

  lemma ReadAnyway(files: seq<File>, cut: int, i: nat, id: string, day: int)
    requires AllStaleHold(files, cut)
    ensures ReadTurn(files, From(cut), i, id, day) ==> ReadTurn(files, All, i, id, day)
    ensures day >= cut ==> (ReadTurn(files, From(cut), i, id, day) <==> ReadTurn(files, All, i, id, day))
  {
    if i < |files| && day >= cut && Stale(files[i], From(cut)) {
      assert StaleHolds(files[i], cut);
    }
  }

  /** Passing over the stale files misses only sessions that began before the cut, and none begins earlier for it. */
  lemma OnlyOlderMissed(files: seq<File>, cut: int)
    requires AllStaleHold(files, cut)
    ensures var all, some := SeeFiles(files, All), SeeFiles(files, From(cut));
      && (forall id :: id in some ==> id in all && all[id] <= some[id])
      && (forall id :: id in all && all[id] >= cut ==> id in some && some[id] == all[id])
  {
    hide AllStaleHold, ReadTurn, SeeFiles;
    forall id ensures var all, some := SeeFiles(files, All), SeeFiles(files, From(cut));
      && (id in some ==> id in all && all[id] <= some[id])
      && (id in all && all[id] >= cut ==> id in some && some[id] == all[id])
    {
      OneMissed(files, cut, id);
    }
  }

  lemma OneMissed(files: seq<File>, cut: int, id: string)
    requires AllStaleHold(files, cut)
    ensures var all, some := SeeFiles(files, All), SeeFiles(files, From(cut));
      && (id in some ==> id in all && all[id] <= some[id])
      && (id in all && all[id] >= cut ==> id in some && some[id] == all[id])
      && (id in some && some[id] >= cut && all[id] < cut <==> Astride(files, cut, id))
  {
    hide AllStaleHold, ReadTurn;
    FirstsAre(files, All, id);
    FirstsAre(files, From(cut), id);
    forall i: nat, day
      ensures ReadTurn(files, From(cut), i, id, day) ==> ReadTurn(files, All, i, id, day)
      ensures day >= cut ==> (ReadTurn(files, From(cut), i, id, day) <==> ReadTurn(files, All, i, id, day))
    {
      ReadAnyway(files, cut, i, id, day);
    }
    hide SeeFiles;
    var all, some := SeeFiles(files, All), SeeFiles(files, From(cut));
    if id in all {
      var i: nat :| ReadTurn(files, All, i, id, all[id]);
    }
    if id in some {
      var i: nat :| ReadTurn(files, From(cut), i, id, some[id]);
    }
  }

  lemma SessionsSplit(m: Firsts, cut: int)
    ensures CountIn(m, All) == CountIn(m, Before(cut)) + CountIn(m, From(cut))
  {
    var before, from := set id | id in m && In(Before(cut), m[id]), set id | id in m && In(From(cut), m[id]);
    assert (set id | id in m && In(All, m[id])) == before + from;
  }

  /** The two count the same sessions from the cut on exactly when none is astride it. */
  lemma SameFromIff(files: seq<File>, cut: int)
    requires AllStaleHold(files, cut)
    ensures (CountIn(SeeFiles(files, All), From(cut)) == CountIn(SeeFiles(files, From(cut)), From(cut)))
        <==> (forall id :: !Astride(files, cut, id))
  {
    hide AllStaleHold, Astride, SeeFiles;
    var all, some := SeeFiles(files, All), SeeFiles(files, From(cut));
    var a, b := set id | id in all && In(From(cut), all[id]), set id | id in some && In(From(cut), some[id]);
    forall id ensures (id in a ==> id in b) && (id in b && id !in a <==> Astride(files, cut, id)) {
      OneMissed(files, cut, id);
    }
    SameSizeIff(a, b);
    assert a == b <==> forall id :: !Astride(files, cut, id) by {
      if a != b { var id :| id in b && id !in a; }
    }
  }

  lemma SameSizeIff<T>(a: set<T>, b: set<T>)
    requires a <= b
    ensures |a| == |b| <==> a == b
  {
    assert b == a + (b - a);
  }

  /** What the history up to a day holds: everything before it, sessions by the day they began on. */
  function History(files: seq<File>, cut: int): Totals {
    Totals(CountFiles(files, Before(cut)), CountIn(SeeFiles(files, All), Before(cut)))
  }

  /**
   Scanning only from a day on, passing over what was last written before it, and adding the history
   up to that day gives what scanning everything gives, per day, per hour, per model, messages, tools
   and sessions, if and only if no session is astride the cut. The files passed over are to hold
   nothing that would be counted.
   */
  lemma WindowAgreesIff(files: seq<File>, cut: int)
    requires AllStaleHold(files, cut)
    ensures (Together(History(files, cut), Scan(files, From(cut))) == Scan(files, All))
        <==> (forall id :: !Astride(files, cut, id))
  {
    hide CountFiles, Plus, CountIn, AllStaleHold, Astride;
    FilesSplit(files, cut);
    SessionsSplit(SeeFiles(files, All), cut);
    SameFromIff(files, cut);
  }

  /** No session's turns lie in two files. */
  ghost predicate Apart(files: seq<File>) {
    forall i: nat, j: nat, id, d, e ::
      i < |files| && j < |files| && HasTurn(files[i].lines, id, d) && HasTurn(files[j].lines, id, e) ==> i == j
  }

  /** With files written no earlier than their lines, and no session in two, it always does. */
  lemma WindowAgrees(files: seq<File>, cut: int)
    requires Apart(files) && forall i :: 0 <= i < |files| ==> TimesHold(files[i])
    ensures Together(History(files, cut), Scan(files, From(cut))) == Scan(files, All)
  {
    TimesAreEnough(files, cut);
    WindowAgreesIff(files, cut);
    hide TimesHold, HasTurn, CountFiles, SeeFiles, Scan, History, Together;
    forall id ensures !Astride(files, cut, id) { ApartIsNotAstride(files, cut, id); }
  }

  lemma ApartIsNotAstride(files: seq<File>, cut: int, id: string)
    requires Apart(files)
    ensures !Astride(files, cut, id)
  {
    hide HasTurn, Stale;
    if Astride(files, cut, id) {
      var i: nat, d :| d >= cut && ReadTurn(files, From(cut), i, id, d);
      var j: nat, e :| e < cut && ReadTurn(files, All, j, id, e);
      ReadToo(files, cut, i, id, d, e);
    }
  }

  lemma ReadToo(files: seq<File>, cut: int, i: nat, id: string, d: int, e: int)
    requires ReadTurn(files, From(cut), i, id, d) && ReadTurn(files, All, i, id, e)
    ensures ReadTurn(files, From(cut), i, id, e)
  {
  }

  /** A session that goes on in a second file after the cut is counted by the history and by the scan. */
  lemma SessionInTwoFilesCountsTwice(id: string, cut: int)
    ensures var turn := (day: int) => Line(None, false, Some(Turn(day, Some(id), None, NONE, 0, None)));
            var files := [File(Some(cut - 1), [turn(cut - 1)]), File(Some(cut), [turn(cut)])];
      && (forall i :: 0 <= i < |files| ==> TimesHold(files[i]))
      && Together(History(files, cut), Scan(files, From(cut))).sessions == 2
      && Scan(files, All).sessions == 1
  {
    var turn := (day: int) => Line(None, false, Some(Turn(day, Some(id), None, NONE, 0, None)));
    var a, b := File(Some(cut - 1), [turn(cut - 1)]), File(Some(cut), [turn(cut)]);
    var files := [a, b];
    OneLine(map[], turn(cut - 1));
    OneLine(map[], turn(cut));
    OneLine(map[id := cut - 1], turn(cut));
    assert files[..1] == [a];
    OneFile(a, All);
    OneFile(a, From(cut));
    assert SeeFiles(files, All) == map[id := cut - 1];
    assert SeeFiles(files, From(cut)) == map[id := cut];
    OneSession(id, cut - 1, Before(cut));
    OneSession(id, cut - 1, All);
    OneSession(id, cut, From(cut));
  }

  lemma OneLine(m: Firsts, l: Line)
    ensures SeeLines(m, [l]) == SeeLine(m, l)
  {
    assert [l][..0] == [];
  }

  lemma OneFile(f: File, w: Window)
    ensures SeeFiles([f], w) == if Stale(f, w) then map[] else SeeLines(map[], f.lines)
  {
    assert [f][..0] == [];
  }

  lemma OneSession(id: string, day: int, w: Window)
    requires In(w, day)
    ensures CountIn(map[id := day], w) == 1
  {
    var m: Firsts := map[id := day];
    assert (set k | k in m && In(w, m[k])) == {id};
  }

  // ----- the counters -----

  class Agg {
    var perDay: map<int, nat>
    const perHour: array<nat>
    var models: map<string, Buckets>
    var messages: nat
    var tools: nat
    var sessions: nat

    predicate Valid() { perHour.Length == 24 }

    function Value(): Totals
      requires Valid()
      reads this, perHour
    {
      Totals(Counts(perDay, perHour[..], models, messages, tools), sessions)
    }

    constructor ()
      ensures Valid() && fresh(perHour) && Value() == Totals(Zero(), 0)
    {
      perHour := new nat[24](_ => 0);
      perDay, models, messages, tools, sessions := map[], map[], 0, 0, 0;
      new;
      assert perHour[..] == NoHours();
    }

    /** Counts one line, as far as it lies in the window. */
    method Count(l: Line, w: Window)
      requires Valid()
      modifies this, perHour
      ensures Value() == Totals(CountLine(old(Value().counts), l, w), old(sessions))
    {
      if l.day.Some? && In(w, l.day.value) && !l.bookkeeping {
        var day := l.day.value;
        perDay := perDay[day := Times(perDay, day) + 1];
        messages := messages + 1;
      }
      if l.turn.Some? && In(w, l.turn.value.day) { CountThe(l.turn.value); }
    }

    method CountThe(t: Turn)
      requires Valid()
      modifies `models, `tools, perHour
      ensures Value() == Totals(CountTurn(old(Value().counts), t), old(sessions))
    {
      if Any(t.usage) && t.model.Some? {
        models := models[t.model.value := Sum(Used(models, t.model.value), t.usage)];
      }
      tools := tools + t.tools;
      if t.hour.Some? {
        ghost var was := perHour[..];
        perHour[t.hour.value] := perHour[t.hour.value] + 1;
        assert perHour[..] == was[t.hour.value := was[t.hour.value] + 1];
      }
    }

    /** Adds another's counts to these. */
    method Merge(o: Agg)
      requires Valid() && o.Valid() && o != this && o.perHour != perHour
      modifies this, perHour
      ensures Value() == Together(old(Value()), o.Value())
    {
      ghost var was := perHour[..];
      var h := 0;
      while h < 24
        invariant 0 <= h <= 24
        invariant forall i :: 0 <= i < 24 ==> perHour[i] == was[i] + if i < h then o.perHour[i] else 0
        modifies perHour
      {
        perHour[h] := perHour[h] + o.perHour[h];
        h := h + 1;
      }
      assert perHour[..] == AddHours(was, o.perHour[..]);
      perDay := MergeTimes(perDay, o.perDay);
      models := MergeUsed(models, o.models);
      messages, tools, sessions := messages + o.messages, tools + o.tools, sessions + o.sessions;
    }
  }

  method MergeTimes<K(==)>(a: map<K, nat>, b: map<K, nat>) returns (m: map<K, nat>)
    ensures m == AddTimes(a, b)
  {
    hide AddTimes, Times;
    m := a;
    var todo := b.Keys;
    AddNothing(a, b);
    while todo != {}
      invariant todo <= b.Keys
      invariant m == AddTimes(a, b - todo)
      decreases |todo|
    {
      var k :| k in todo;
      AddOneMore(a, b, todo, k);
      m := m[k := Times(m, k) + b[k]];
      todo := todo - {k};
    }
    assert b - {} == b;
  }

  lemma AddNothing<K>(a: map<K, nat>, b: map<K, nat>)
    ensures AddTimes(a, b - b.Keys) == a
  {
  }

  lemma AddOneMore<K>(a: map<K, nat>, b: map<K, nat>, todo: set<K>, k: K)
    requires k in todo && todo <= b.Keys
    ensures var m := AddTimes(a, b - todo); AddTimes(a, b - (todo - {k})) == m[k := Times(m, k) + b[k]]
  {
  }

  method MergeUsed(a: map<string, Buckets>, b: map<string, Buckets>) returns (m: map<string, Buckets>)
    ensures m == AddUsed(a, b)
  {
    hide AddUsed, Used, Sum;
    m := a;
    var todo := b.Keys;
    UseNothing(a, b);
    while todo != {}
      invariant todo <= b.Keys
      invariant m == AddUsed(a, b - todo)
      decreases |todo|
    {
      var k :| k in todo;
      UseOneMore(a, b, todo, k);
      m := m[k := Sum(Used(m, k), b[k])];
      todo := todo - {k};
    }
    assert b - {} == b;
  }

  lemma UseNothing(a: map<string, Buckets>, b: map<string, Buckets>)
    ensures AddUsed(a, b - b.Keys) == a
  {
    var m := AddUsed(a, b - b.Keys);
    assert m.Keys == a.Keys;
    assert forall k :: k in m ==> m[k] == a[k];
  }

  lemma UseOneMore(a: map<string, Buckets>, b: map<string, Buckets>, todo: set<string>, k: string)
    requires k in todo && todo <= b.Keys
    ensures var m := AddUsed(a, b - todo); AddUsed(a, b - (todo - {k})) == m[k := Sum(Used(m, k), b[k])]
  {
    var m, c := AddUsed(a, b - todo), b - (todo - {k});
    var n, want := AddUsed(a, c), m[k := Sum(Used(m, k), b[k])];
    assert n.Keys == want.Keys;
    assert Used(m, k) == Used(a, k) by { NothingAdded(Used(a, k)); }
    assert n[k] == Sum(Used(a, k), b[k]) == want[k];
    hide Sum;
    assert forall j :: j in n && j != k ==> Used(c, j) == Used(b - todo, j) && n[j] == m[j];
  }

  method ScanTranscripts(files: seq<File>, since: Option<int>) returns (agg: Agg)
    ensures fresh(agg) && fresh(agg.perHour) && agg.Valid()
    ensures agg.Value() == Scan(files, if since.Some? then From(since.value) else All)
  {
    hide CountLine, SeeLine, CountIn;
    var w := if since.Some? then From(since.value) else All;
    agg := new Agg();
    var firsts: Firsts := map[];
    var n := 0;
    while n < |files|
      invariant 0 <= n <= |files|
      invariant agg.Valid() && agg.Value() == Totals(CountFiles(files[..n], w), 0)
      invariant firsts == SeeFiles(files[..n], w)
      modifies agg, agg.perHour
    {
      var f := files[n];
      assert files[..n + 1][..n] == files[..n];
      n := n + 1;
      if Stale(f, w) { continue; }
      ghost var c, m := agg.Value().counts, firsts;
      var i := 0;
      while i < |f.lines|
        invariant 0 <= i <= |f.lines|
        invariant agg.Valid() && agg.Value() == Totals(CountLines(c, f.lines[..i], w), 0)
        invariant firsts == SeeLines(m, f.lines[..i])
        modifies agg, agg.perHour
      {
        agg.Count(f.lines[i], w);
        firsts := SeeLine(firsts, f.lines[i]);
        i := i + 1;
        assert f.lines[..i][..i - 1] == f.lines[..i - 1];
      }
      assert f.lines[..i] == f.lines;
    }
    assert files[..n] == files;
    agg.sessions := CountIn(firsts, w);
  }
}
