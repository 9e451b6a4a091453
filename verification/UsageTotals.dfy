/** What a scan of transcripts comes to, in terms of the lines it reads. */
module UsageTotals {
  import opened Wrappers
  import opened UsageScan

  /** From the first day asked for on; every day when none is. */
  predicate Since(since: Option<int>, day: int) { since.None? || day >= since.value }

  /** Last written before that day. */
  predicate PassedOver(f: File, since: Option<int>) {
    since.Some? && f.written.Some? && f.written.value < since.value
  }

  /** The lines of the files that are read. */
  function LinesRead(files: seq<File>, since: Option<int>): seq<Line> {
    if files == [] then []
    else
      var f := files[|files| - 1];
      LinesRead(files[..|files| - 1], since) + (if PassedOver(f, since) then [] else f.lines)
  }

  function WindowOf(since: Option<int>): Window { if since.Some? then From(since.value) else All }

  predicate IsMessage(l: Line, since: Option<int>) { l.day.Some? && !l.bookkeeping && Since(since, l.day.value) }

  predicate IsTurn(l: Line, since: Option<int>) { l.turn.Some? && Since(since, l.turn.value.day) }

  lemma {:induction false} CountJoined(c: Counts, a: seq<Line>, b: seq<Line>, w: Window)
    ensures CountLines(c, a + b, w) == CountLines(CountLines(c, a, w), b, w)
    decreases b
  {
    hide CountLine;
    if b == [] {
      assert a + b == a;
    } else {
      assert (a + b)[..|a + b| - 1] == a + b[..|b| - 1];
      CountJoined(c, a, b[..|b| - 1], w);
    }
  }

  lemma {:induction false} CountsAreOfLines(files: seq<File>, since: Option<int>)
    ensures CountFiles(files, WindowOf(since)) == CountLines(Zero(), LinesRead(files, since), WindowOf(since))
  {
    hide CountLines;
    if files == [] {
      NoLines(WindowOf(since));
    } else {
      var rest, f := files[..|files| - 1], files[|files| - 1];
      CountsAreOfLines(rest, since);
      CountJoined(Zero(), LinesRead(rest, since), f.lines, WindowOf(since));
      assert LinesRead(rest, since) + [] == LinesRead(rest, since);
    }
  }

  lemma NoLines(w: Window)
    ensures CountLines(Zero(), [], w) == Zero()
  {
  }

  /** One line's part in every counter. */
  lemma LineIsCounted(c: Counts, l: Line, since: Option<int>, day: int, h: Hour, model: string)
    ensures var d := CountLine(c, l, WindowOf(since));
      && d.messages == c.messages + (if IsMessage(l, since) then 1 else 0)
      && Times(d.perDay, day) == Times(c.perDay, day) + (if IsMessage(l, since) && l.day.value == day then 1 else 0)
      && d.perHour[h] == c.perHour[h] + (if IsTurn(l, since) && l.turn.value.hour == Some(h) then 1 else 0)
      && d.tools == c.tools + (if IsTurn(l, since) then l.turn.value.tools else 0)
      && Used(d.models, model).input == Used(c.models, model).input + Spent(l, since, model).input
      && Used(d.models, model).output == Used(c.models, model).output + Spent(l, since, model).output
      && Used(d.models, model).cacheRead == Used(c.models, model).cacheRead + Spent(l, since, model).cacheRead
      && Used(d.models, model).cacheWrite == Used(c.models, model).cacheWrite + Spent(l, since, model).cacheWrite
      && (Listed(c, day, model) ==> Listed(d, day, model))
  {
    OneLineCounts(c, l, WindowOf(since), day, h, model);
    hide CountLine, Times, Used, Listed;
  }

  function Spent(l: Line, since: Option<int>, model: string): Buckets {
    if IsTurn(l, since) && l.turn.value.model == Some(model) then l.turn.value.usage else Buckets(0, 0, 0, 0)
  }

  /** What a scan counts, from the lines it reads. */
  predicate Tally(c: Counts, lines: seq<Line>, since: Option<int>, day: int, h: Hour, model: string) {
    && c.messages == SumOver(lines, l => if IsMessage(l, since) then 1 else 0)
    && (if day in c.perDay then c.perDay[day] else 0)
         == SumOver(lines, l => if IsMessage(l, since) && l.day.value == day then 1 else 0)
    && c.perHour[h] == SumOver(lines, l => if IsTurn(l, since) && l.turn.value.hour == Some(h) then 1 else 0)
    && c.tools == SumOver(lines, l => if IsTurn(l, since) then l.turn.value.tools else 0)
    && var u := if model in c.models then c.models[model] else Buckets(0, 0, 0, 0);
       && u.input == SumOver(lines, l => Spent(l, since, model).input)
       && u.output == SumOver(lines, l => Spent(l, since, model).output)
       && u.cacheRead == SumOver(lines, l => Spent(l, since, model).cacheRead)
       && u.cacheWrite == SumOver(lines, l => Spent(l, since, model).cacheWrite)
       && (day in c.perDay ==> c.perDay[day] > 0)
       && (model in c.models ==> u.input + u.output + u.cacheRead + u.cacheWrite > 0)
  }

  lemma {:induction false} LinesTally(lines: seq<Line>, since: Option<int>, day: int, h: Hour, model: string)
    ensures Tally(CountLines(Zero(), lines, WindowOf(since)), lines, since, day, h, model)
  {
    if lines != [] {
      var n := |lines| - 1;
      LinesTally(lines[..n], since, day, h, model);
      LineIsCounted(CountLines(Zero(), lines[..n], WindowOf(since)), lines[n], since, day, h, model);
      hide CountLine, IsMessage, IsTurn, Spent;
    }
  }

  /** The session has a turn among these lines, and none of it before the first day asked for. */
  ghost predicate BeganSince(lines: seq<Line>, since: Option<int>, id: string) {
    && (exists day :: HasTurn(lines, id, day))
    && (forall day :: HasTurn(lines, id, day) ==> Since(since, day))
  }

  lemma {:induction false} SeeJoined(m: Firsts, a: seq<Line>, b: seq<Line>)
    ensures SeeLines(m, a + b) == SeeLines(SeeLines(m, a), b)
    decreases b
  {
    hide SeeLine;
    if b == [] {
      assert a + b == a;
    } else {
      assert (a + b)[..|a + b| - 1] == a + b[..|b| - 1];
      SeeJoined(m, a, b[..|b| - 1]);
    }
  }

  lemma {:induction false} SeenAreOfLines(files: seq<File>, since: Option<int>)
    ensures SeeFiles(files, WindowOf(since)) == SeeLines(map[], LinesRead(files, since))
  {
    hide SeeLines;
    if files == [] {
      NoneSeen();
    } else {
      var rest, f := files[..|files| - 1], files[|files| - 1];
      SeenAreOfLines(rest, since);
      SeeJoined(map[], LinesRead(rest, since), f.lines);
      assert LinesRead(rest, since) + [] == LinesRead(rest, since);
    }
  }

  lemma NoneSeen()
    ensures SeeLines(map[], []) == map[]
  {
  }

  lemma SessionIsIn(lines: seq<Line>, since: Option<int>, id: string)
    ensures var m := SeeLines(map[], lines);
      id in m && In(WindowOf(since), m[id]) <==> BeganSince(lines, since, id)
  {
    SeenAre(map[], lines, id);
    hide SeeLines, HasTurn;
    var m := SeeLines(map[], lines);
    if id in m { assert HasTurn(lines, id, m[id]); }
  }

  /**
   All a scan comes to: each counter is the sum, over the lines of the files not passed over, of what that
   line adds from the first day asked for on, and nothing is listed that was not counted; and the sessions
   are exactly those whose first turn among those lines is no earlier.
   */
  lemma ScanIs(files: seq<File>, since: Option<int>, day: int, h: Hour, model: string, sessions: set<string>)
    requires forall id :: id in sessions <==> BeganSince(LinesRead(files, since), since, id)
    ensures var t := Scan(files, if since.Some? then From(since.value) else All);
      Tally(t.counts, LinesRead(files, since), since, day, h, model) && t.sessions == |sessions|
  {
    CountsAreOfLines(files, since);
    SeenAreOfLines(files, since);
    var lines := LinesRead(files, since);
    LinesTally(lines, since, day, h, model);
    hide CountFiles, SeeFiles, SeeLines, CountLines, Tally, BeganSince, LinesRead, In;
    var m := SeeLines(map[], lines);
    forall id ensures id in m && In(WindowOf(since), m[id]) <==> id in sessions { SessionIsIn(lines, since, id); }
    assert (set id | id in m && In(WindowOf(since), m[id])) == sessions;
  }
}
