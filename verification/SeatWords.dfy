/** Which turns a usage report stops, in the words of the report. */
module SeatWords {
  import opened Wrappers
  import opened Seats
  import opened SeatVerdict

  // ----- texts in any case -----

  predicate SameLetter(a: char, b: char) {
    || a == b
    || ('A' <= a <= 'Z' && b as int == a as int + 32)
    || ('A' <= b <= 'Z' && a as int == b as int + 32)
  }

  predicate SameText(s: string, t: string) { |s| == |t| && forall i :: 0 <= i < |s| ==> SameLetter(s[i], t[i]) }

  /** `t` is `s` with its capitals lower-cased. */
  predicate LowerCased(s: string, t: string) {
    && |s| == |t|
    && forall i :: 0 <= i < |s| ==>
         if 'A' <= s[i] <= 'Z' then t[i] as int == s[i] as int + 32 else t[i] == s[i]
  }

  /** `t` stands somewhere in `s`. */
  ghost predicate Mentions(s: string, t: string) { exists a, b :: SameText(s, a + t + b) }

  lemma LowerIs(s: string)
    ensures LowerCased(s, Lower(s))
  {
  }

  lemma SameIffLower(s: string, t: string)
    ensures SameText(s, t) <==> Lower(s) == Lower(t)
  {
    LowerIs(s);
    LowerIs(t);
    if Lower(s) == Lower(t) {
      forall i | 0 <= i < |s| ensures SameLetter(s[i], t[i]) { assert Lower(s)[i] == Lower(t)[i]; }
    }
    hide Lower;
    if SameText(s, t) { assert forall i :: 0 <= i < |s| ==> Lower(s)[i] == Lower(t)[i]; }
  }

  lemma LowerJoined(s: string, t: string)
    ensures Lower(s + t) == Lower(s) + Lower(t)
  {
  }

  lemma LowerTwice(s: string)
    ensures Lower(Lower(s)) == Lower(s)
  {
  }

  lemma ContainsIs(s: string, t: string)
    ensures Contains(Lower(s), Lower(t)) <==> Mentions(s, t)
  {
    if i :| 0 <= i <= |s| && At(Lower(s), Lower(t), i) {
      var a, b := s[..i], s[i + |t|..];
      LowerJoined(a, s[i..i + |t|]);
      assert Lower(s)[i..i + |t|] == Lower(s[i..i + |t|]);
      assert s == a + s[i..i + |t|] + b;
      LowerThree(a, s[i..i + |t|], b);
      LowerThree(a, t, b);
      SameIffLower(s, a + t + b);
    }
    if a, b :| SameText(s, a + t + b) {
      SameIffLower(s, a + t + b);
      LowerThree(a, t, b);
      assert At(Lower(s), Lower(t), |a|);
    }
  }

  lemma LowerThree(a: string, b: string, c: string)
    ensures Lower(a + b + c) == Lower(a) + Lower(b) + Lower(c)
  {
    LowerJoined(a + b, c);
    LowerJoined(a, b);
  }

  // ----- whose window it is -----

  /** The window's own name ends in `_` and this model, in any case. */
  ghost predicate EndsIn(kind: string, model: string) { exists a :: SameText(kind, a + ("_" + model)) }

  function Kind(l: Limit): string { if l.kind.Some? then l.kind.value else "usage" }

  predicate Named(name: Option<string>) { name.Some? && name.value != "" }

  /** The report says so of the window: its display name, or else its id, or else the end of its own name. */
  ghost predicate IsOf(l: Limit, model: string) {
    if Named(l.modelName) then model == l.modelName.value
    else if Named(l.modelId) then model == l.modelId.value
    else
      && model in ["opus", "sonnet", "haiku", "fable", "omelette"]
      && EndsIn(Kind(l), model)
  }

  lemma EndsInIs(kind: string, model: string)
    requires Lower("_" + model) == "_" + model
    ensures EndsWith(Lower(kind), "_" + model) <==> EndsIn(kind, model)
  {
    var end := "_" + model;
    if EndsWith(Lower(kind), end) {
      var n := |kind| - |end|;
      LowerJoined(kind[..n], kind[n..]);
      LowerJoined(kind[..n], end);
      assert kind == kind[..n] + kind[n..];
      assert Lower(kind)[n..] == Lower(kind[n..]);
      SameIffLower(kind, kind[..n] + end);
    }
    if a :| SameText(kind, a + end) {
      SameIffLower(kind, a + end);
      LowerJoined(a, end);
      assert Lower(kind)[|kind| - |end|..] == end;
    }
  }

  lemma LowerAlready(s: string)
    requires forall i :: 0 <= i < |s| ==> !('A' <= s[i] <= 'Z')
    ensures Lower(s) == s
  {
  }

  /** The five are told apart by their ends. */
  lemma OneEnd(k: string)
    ensures !(EndsWith(k, "_opus") && EndsWith(k, "_sonnet")) && !(EndsWith(k, "_opus") && EndsWith(k, "_haiku"))
    ensures !(EndsWith(k, "_opus") && EndsWith(k, "_fable")) && !(EndsWith(k, "_opus") && EndsWith(k, "_omelette"))
    ensures !(EndsWith(k, "_sonnet") && EndsWith(k, "_haiku")) && !(EndsWith(k, "_sonnet") && EndsWith(k, "_fable"))
    ensures !(EndsWith(k, "_sonnet") && EndsWith(k, "_omelette")) && !(EndsWith(k, "_haiku") && EndsWith(k, "_fable"))
    ensures !(EndsWith(k, "_haiku") && EndsWith(k, "_omelette")) && !(EndsWith(k, "_fable") && EndsWith(k, "_omelette"))
  {
    LastOf(k, "_opus");
    LastOf(k, "_sonnet");
    LastOf(k, "_haiku");
    LastOf(k, "_fable");
    LastOf(k, "_omelette");
    hide EndsWith;
  }

  lemma LastOf(k: string, t: string)
    requires |t| > 1
    ensures EndsWith(k, t) ==> |k| > 1 && k[|k| - 1] == t[|t| - 1] && k[|k| - 2] == t[|t| - 2]
  {
  }

  lemma ModelInKindIs(kind: string, model: string)
    ensures ModelInKind(kind) == Some(model) <==>
      model in ["opus", "sonnet", "haiku", "fable", "omelette"] && EndsIn(kind, model)
  {
    var k := Lower(kind);
    OneEnd(k);
    TheFive(kind);
    hide EndsWith, EndsIn, Lower;
    assert model in ["opus", "sonnet", "haiku", "fable", "omelette"] <==>
             model == "opus" || model == "sonnet" || model == "haiku" || model == "fable" || model == "omelette";
  }

  lemma TheFive(kind: string)
    ensures EndsWith(Lower(kind), "_opus") <==> EndsIn(kind, "opus")
    ensures EndsWith(Lower(kind), "_sonnet") <==> EndsIn(kind, "sonnet")
    ensures EndsWith(Lower(kind), "_haiku") <==> EndsIn(kind, "haiku")
    ensures EndsWith(Lower(kind), "_fable") <==> EndsIn(kind, "fable")
    ensures EndsWith(Lower(kind), "_omelette") <==> EndsIn(kind, "omelette")
  {
    hide EndsWith, EndsIn, Lower;
    OneOfFive(kind, "opus", "_opus");
    OneOfFive(kind, "sonnet", "_sonnet");
    OneOfFive(kind, "haiku", "_haiku");
    OneOfFive(kind, "fable", "_fable");
    OneOfFive(kind, "omelette", "_omelette");
  }

  lemma OneOfFive(kind: string, model: string, end: string)
    requires end == "_" + model && forall i :: 0 <= i < |model| ==> 'a' <= model[i] <= 'z'
    ensures EndsWith(Lower(kind), end) <==> EndsIn(kind, model)
  {
    LowerAlready(end);
    EndsInIs(kind, model);
  }

  /**
   Whose window it is: the one named, lower-cased; else by its id, lower-cased; else the one of the five its
   own name ends in; and else the whole account's.
   */
  lemma ScopeInWords(l: Limit)
    ensures ScopeOf(l).None? <==> forall m :: !IsOf(l, m)
    ensures forall m :: IsOf(l, m) ==> ScopeOf(l).Some? && LowerCased(m, ScopeOf(l).value) && m != ""
    ensures ScopeOf(l).Some? ==> exists m :: IsOf(l, m) && LowerCased(m, ScopeOf(l).value)
  {
    hide ModelInKind;
    if Named(l.modelName) {
      LowerIs(l.modelName.value);
      assert IsOf(l, l.modelName.value);
    } else if Named(l.modelId) {
      LowerIs(l.modelId.value);
      assert IsOf(l, l.modelId.value);
    } else {
      forall m ensures IsOf(l, m) <==> ScopeOf(l) == Some(m) { ModelInKindIs(Kind(l), m); }
      forall m | m in ["opus", "sonnet", "haiku", "fable", "omelette"] ensures LowerCased(m, m) && m != "" {
        LowerIs(m);
      }
    }
  }

  // ----- which turns it stops -----

  /** A window of the whole account stops every turn; a model's one on a model of which either text has the other. */
  ghost predicate StopsTurn(l: Limit, model: Option<string>) {
    || (forall m :: !IsOf(l, m))
    || (model.Some? && exists m :: IsOf(l, m) && (Mentions(model.value, m) || Mentions(m, model.value)))
  }

  lemma WhatItStops(l: Limit, model: Option<string>)
    ensures Stops(ScopeOf(l), model) <==> StopsTurn(l, model)
  {
    ScopeInWords(l);
    hide ScopeOf, IsOf, Mentions;
    if ScopeOf(l).Some? && model.Some? {
      forall m | IsOf(l, m)
        ensures Stops(ScopeOf(l), model) <==> Mentions(model.value, m) || Mentions(m, model.value)
      {
        MatchesIs(model.value, m, ScopeOf(l).value);
      }
    }
  }

  lemma MatchesIs(model: string, m: string, scope: string)
    requires LowerCased(m, scope) && m != ""
    ensures ModelMatches(model, scope) <==> Mentions(model, m) || Mentions(m, model)
  {
    hide Mentions;
    LowerIs(m);
    assert scope == Lower(m);
    LowerTwice(m);
    ContainsIs(model, m);
    ContainsIs(m, model);
    hide Lower, Contains;
  }

  /** Full, and not rolled over yet as far as is known. */
  predicate FullNow(l: Limit, now: int) {
    l.percent.Some? && l.percent.value >= 100.0 && (l.resets.Some? ==> l.resets.value > now)
  }

  /** Extra usage is on and its limit not reached. */
  predicate PaidFor(u: Usage) { u.extraEnabled == Some(true) && u.spendLimitReached != Some(true) }

  /** A turn is stopped exactly by a full window that is the account's own or of its model, nothing paying for it. */
  lemma StoppedIff(u: Usage, now: int, model: Option<string>)
    ensures Blocks(UsageSnapshot(u, now).walls, model).Some? <==>
      !PaidFor(u) && exists i :: 0 <= i < |u.limits| && FullNow(u.limits[i], now) && StopsTurn(u.limits[i], model)
  {
    WallsAreTheFullWindows(u, now);
    hide UsageSnapshot, StopsTurn, Stops, ScopeOf, KindOf;
    var walls := UsageSnapshot(u, now).walls;
    if Blocks(walls, model).Some? {
      var w := Blocks(walls, model).value;
      var i :| 0 <= i < |u.limits| && IsWall(u.limits[i], now) && WallOf(u.limits[i], now) == w;
      WhatItStops(u.limits[i], model);
    }
    if i :| !PaidFor(u) && 0 <= i < |u.limits| && FullNow(u.limits[i], now) && StopsTurn(u.limits[i], model) {
      WhatItStops(u.limits[i], model);
      var w := WallOf(u.limits[i], now);
      assert IsWall(u.limits[i], now) && w in walls;
      var j :| 0 <= j < |walls| && walls[j] == w;
      assert Stops(walls[j].scope, model);
    }
  }

  /** The whole account's window is full. */
  ghost predicate AllFull(l: Limit, now: int) { FullNow(l, now) && forall m :: !IsOf(l, m) }

  /** Full is told with that window's name and reset, an hour from now when none is told. */
  lemma FullInWords(u: Usage, now: int)
    ensures var state := UsageSnapshot(u, now).state; var all := u.limits;
      && (state.Full? <==> !PaidFor(u) && exists i :: 0 <= i < |all| && AllFull(all[i], now))
      && (state.Full? ==>
            exists i :: && 0 <= i < |all| && AllFull(all[i], now)
                        && state == Full(Kind(all[i]), if all[i].resets.Some? then all[i].resets.value else now + 3600))
  {
    FullIffBlocked(u, now);
    StoppedIff(u, now, None);
    hide IsOf, Blocks, UsageSnapshot;
    if UsageSnapshot(u, now).state.Full? {
      var w := Blocks(UsageSnapshot(u, now).walls, None).value;
      WallsAreTheFullWindows(u, now);
      var i :| 0 <= i < |u.limits| && IsWall(u.limits[i], now) && WallOf(u.limits[i], now) == w;
      ScopeInWords(u.limits[i]);
    } else if i :| !PaidFor(u) && 0 <= i < |u.limits| && AllFull(u.limits[i], now) {
      assert StopsTurn(u.limits[i], None);
    }
  }

  /** Else it is unknown when a window was full before it rolled over or none could be read, and fine otherwise. */
  lemma VerdictInWords(u: Usage, now: int)
    ensures var state := UsageSnapshot(u, now).state; var all := u.limits;
      var full := !PaidFor(u) && exists i :: 0 <= i < |all| && AllFull(all[i], now);
      var stale := !PaidFor(u) && exists i :: 0 <= i < |all| && OldFull(all[i], now);
      var unread := forall i :: 0 <= i < |all| ==> !(all[i].percent.Some? && all[i].percent.value >= 0.0);
      (state == Unknown <==> !full && (stale || unread)) && (state == Fine <==> !full && !stale && !unread)
  {
    FullInWords(u, now);
    WorstIsTheFullest(u.limits);
    StaleIs(u, now);
    hide AllFull, OldFull, WallsOf, WorstOf, AnyStale;
  }

  /** Full when it was reported, and rolled over since. */
  predicate OldFull(l: Limit, now: int) {
    l.percent.Some? && l.percent.value >= 100.0 && l.resets.Some? && l.resets.value <= now
  }

  lemma StaleIs(u: Usage, now: int)
    ensures AnyStale(u.limits, now) <==> exists i :: 0 <= i < |u.limits| && OldFull(u.limits[i], now)
  {
    if i :| 0 <= i < |u.limits| && OldFull(u.limits[i], now) { assert IsStale(u.limits[i], now); }
    if i :| 0 <= i < |u.limits| && IsStale(u.limits[i], now) { assert OldFull(u.limits[i], now); }
  }

  // ----- which window is told first -----

  /** The first full window of the whole account, or of some model. */
  predicate FirstFull(limits: seq<Limit>, now: int, scoped: bool, i: int) {
    && 0 <= i < |limits| && FullNow(limits[i], now) && ScopeOf(limits[i]).Some? == scoped
    && forall j :: 0 <= j < i && FullNow(limits[j], now) ==> ScopeOf(limits[j]).Some? != scoped
  }

  lemma {:induction false} OfScopeJoined(a: seq<Wall>, b: seq<Wall>, scoped: bool)
    ensures OfScope(a + b, scoped) == OfScope(a, scoped) + OfScope(b, scoped)
  {
    if a == [] {
      assert a + b == b;
    } else {
      assert (a + b)[1..] == a[1..] + b;
      OfScopeJoined(a[1..], b, scoped);
    }
  }

  /** The walls begin with that of the first such window, if there is one. */
  ghost predicate BeginsWith(part: seq<Wall>, limits: seq<Limit>, now: int, scoped: bool) {
    if part == [] then NoneFull(limits, now, scoped)
    else exists i :: FirstFull(limits, now, scoped, i) && part[0] == WallOf(limits[i], now)
  }

  lemma BeginsStill(part: seq<Wall>, one: seq<Wall>, limits: seq<Limit>, now: int, scoped: bool)
    requires limits != [] && BeginsWith(part, limits[..|limits| - 1], now, scoped)
    requires var l := limits[|limits| - 1];
      one == if FullNow(l, now) && ScopeOf(l).Some? == scoped then [WallOf(l, now)] else []
    ensures BeginsWith(part + one, limits, now, scoped)
  {
    hide ScopeOf, FullNow, WallOf;
    var n := |limits| - 1;
    assert forall i :: 0 <= i < n ==> limits[..n][i] == limits[i];
    if part != [] {
      var i :| FirstFull(limits[..n], now, scoped, i) && part[0] == WallOf(limits[..n][i], now);
      assert FirstFull(limits, now, scoped, i) && (part + one)[0] == part[0];
    } else if one != [] {
      assert FirstFull(limits, now, scoped, n) && (part + one)[0] == one[0];
    }
  }

  lemma {:induction false} FirstOfScope(limits: seq<Limit>, now: int, scoped: bool)
    ensures BeginsWith(OfScope(FullWalls(limits, now), scoped), limits, now, scoped)
  {
    hide ScopeOf, FullNow, IsWall, WallOf;
    if limits != [] {
      var n := |limits| - 1;
      var before, l := limits[..n], limits[n];
      FirstOfScope(before, now, scoped);
      hide BeginsWith;
      var one := if IsWall(l, now) then [WallOf(l, now)] else [];
      WallIsFullNow(l, now);
      OfScopeJoined(FullWalls(before, now), one, scoped);
      OneOfScope(l, now, scoped);
      hide OfScope;
      BeginsStill(OfScope(FullWalls(before, now), scoped), OfScope(one, scoped), limits, now, scoped);
    }
  }

  predicate NoneFull(limits: seq<Limit>, now: int, scoped: bool) {
    forall j :: 0 <= j < |limits| && FullNow(limits[j], now) ==> ScopeOf(limits[j]).Some? != scoped
  }

  /**
   The wall told first, which is the one remembered: that of the first full window of the whole account, and
   when there is none, of the first full window.
   */
  lemma FirstTold(u: Usage, now: int)
    requires UsageSnapshot(u, now).walls != []
    ensures var w := UsageSnapshot(u, now).walls[0];
      && (exists i :: FirstFull(u.limits, now, w.scope.Some?, i) && w == WallOf(u.limits[i], now))
      && (w.scope.Some? ==> NoneFull(u.limits, now, false))
  {
    FirstOfScope(u.limits, now, false);
    FirstOfScope(u.limits, now, true);
    OfScopeIs(FullWalls(u.limits, now), false);
    OfScopeIs(FullWalls(u.limits, now), true);
    hide FullWalls, OfScope, WallOf, FirstFull, NoneFull, Verdict, WorstOf, AnyStale;
    var a, b := OfScope(FullWalls(u.limits, now), false), OfScope(FullWalls(u.limits, now), true);
    assert UsageSnapshot(u, now).walls == a + b;
    if a != [] { assert (a + b)[0] == a[0] && a[0] in a; } else { assert (a + b)[0] == b[0] && b[0] in b; }
  }

  lemma WallIsFullNow(l: Limit, now: int)
    ensures IsWall(l, now) <==> FullNow(l, now)
  {
  }

  lemma OneOfScope(l: Limit, now: int, scoped: bool)
    ensures OfScope([WallOf(l, now)], scoped) == if ScopeOf(l).Some? == scoped then [WallOf(l, now)] else []
    ensures OfScope([], scoped) == []
  {
    assert [WallOf(l, now)][1..] == [];
  }
}
