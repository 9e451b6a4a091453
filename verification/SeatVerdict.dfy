/** What a seat can take: the verdict of its usage windows, and what is remembered of it besides. */
module SeatVerdict {
  import opened Wrappers
  import opened Seats

  // ----- models -----

  function LowerChar(c: char): char {
    if 'A' <= c <= 'Z' then (c as int + 32) as char else c
  }

  function Lower(s: string): (r: string)
    ensures |r| == |s|
  {
    seq(|s|, i requires 0 <= i < |s| => LowerChar(s[i]))
  }

  predicate At(s: string, t: string, i: nat) { i + |t| <= |s| && s[i..i + |t|] == t }

  predicate Contains(s: string, t: string) { exists i | 0 <= i <= |s| :: At(s, t, i) }

  predicate EndsWith(s: string, t: string) { |t| <= |s| && s[|s| - |t|..] == t }

  predicate ModelMatches(model: string, scope: string) {
    scope != "" && (Contains(Lower(model), Lower(scope)) || Contains(Lower(scope), Lower(model)))
  }

  /** The model a window's own name ends in. */
  function ModelInKind(kind: string): Option<string> {
    var k := Lower(kind);
    if EndsWith(k, "_opus") then Some("opus")
    else if EndsWith(k, "_sonnet") then Some("sonnet")
    else if EndsWith(k, "_haiku") then Some("haiku")
    else if EndsWith(k, "_fable") then Some("fable")
    else if EndsWith(k, "_omelette") then Some("omelette")
    else None
  }

  // ----- walls -----

  /** A window found full, for one model only when it has a scope. */
  datatype Wall = Wall(kind: string, until: int, scope: Option<string>)

  predicate Stops(scope: Option<string>, model: Option<string>) {
    scope.Some? ==> model.Some? && ModelMatches(model.value, scope.value)
  }

  /** The first wall that stops a turn on that model, or on none in particular. */
  function Blocks(walls: seq<Wall>, model: Option<string>): (w: Option<Wall>)
    ensures w.Some? <==> exists i :: 0 <= i < |walls| && Stops(walls[i].scope, model)
    ensures w.Some? ==> w.value in walls && Stops(w.value.scope, model)
  {
    if walls == [] then None
    else if Stops(walls[0].scope, model) then Some(walls[0])
    else Blocks(walls[1..], model)
  }

  datatype SeatState =
    | Fine
    | Full(kind: string, until: int)   // a window of the whole account
    | NoCredential
    | AuthRefused
    | CredentialUnreadable(why: string)
    | Rejected(status: nat)
    | Unknown
    | Idle

  datatype Worst = Worst(kind: string, percent: real, resets: Option<int>)

  datatype Snapshot = Snapshot(state: SeatState, credential: Option<string>, worst: Option<Worst>, walls: seq<Wall>)

  function Bare(state: SeatState): Snapshot { Snapshot(state, None, None, []) }

  // ----- reading the usage windows -----

  /** A window as it is reported, any part possibly missing; its reset as epoch seconds when it could be read. */
  datatype Limit = Limit(percent: Option<real>, kind: Option<string>, resets: Option<int>,
                         modelName: Option<string>, modelId: Option<string>)

  datatype Usage = Usage(limits: seq<Limit>, extraEnabled: Option<bool>, spendLimitReached: Option<bool>)

  /** Extra usage pays for what goes over. */
  predicate Covered(u: Usage) { u.extraEnabled == Some(true) && u.spendLimitReached != Some(true) }

  predicate Readable(l: Limit) { l.percent.Some? && l.percent.value >= 0.0 }

  function KindOf(l: Limit): string { if l.kind.Some? then l.kind.value else "usage" }

  function ScopeOf(l: Limit): Option<string> {
    if l.modelName.Some? && l.modelName.value != "" then Some(Lower(l.modelName.value))
    else if l.modelId.Some? && l.modelId.value != "" then Some(Lower(l.modelId.value))
    else ModelInKind(KindOf(l))
  }

  predicate IsFull(l: Limit) { Readable(l) && l.percent.value >= 100.0 }

  /** Full by its percentage, but reported before it last rolled over. */
  predicate IsStale(l: Limit, now: int) { IsFull(l) && l.resets.Some? && l.resets.value <= now }

  predicate IsWall(l: Limit, now: int) { IsFull(l) && (l.resets.None? || l.resets.value > now) }

  function WallOf(l: Limit, now: int): Wall {
    Wall(KindOf(l), if l.resets.Some? then l.resets.value else now + 3600, ScopeOf(l))
  }

  function FullWalls(limits: seq<Limit>, now: int): seq<Wall> {
    if limits == [] then []
    else
      var l := limits[|limits| - 1];
      FullWalls(limits[..|limits| - 1], now) + (if IsWall(l, now) then [WallOf(l, now)] else [])
  }

  function WorstOf(limits: seq<Limit>): Option<Worst> {
    if limits == [] then None
    else
      var l := limits[|limits| - 1];
      var w := WorstOf(limits[..|limits| - 1]);
      if Readable(l) && (w.None? || l.percent.value > w.value.percent) then
        Some(Worst(KindOf(l), l.percent.value, l.resets))
      else w
  }

  predicate AnyStale(limits: seq<Limit>, now: int) { exists i :: 0 <= i < |limits| && IsStale(limits[i], now) }

  function OfScope(walls: seq<Wall>, scoped: bool): seq<Wall> {
    if walls == [] then []
    else if walls[0].scope.Some? == scoped then [walls[0]] + OfScope(walls[1..], scoped)
    else OfScope(walls[1..], scoped)
  }

  /** Those of the whole account first, and otherwise as they were. */
  function AccountFirst(walls: seq<Wall>): seq<Wall> { OfScope(walls, false) + OfScope(walls, true) }

  function WallsOf(u: Usage, now: int): seq<Wall> {
    if Covered(u) then [] else AccountFirst(FullWalls(u.limits, now))
  }

  function Verdict(walls: seq<Wall>, stale: bool, worst: Option<Worst>): SeatState {
    if walls != [] && walls[0].scope.None? then Full(walls[0].kind, walls[0].until)
    else if stale || worst.None? then Unknown
    else Fine
  }

  function UsageSnapshot(u: Usage, now: int): Snapshot {
    var walls, worst := WallsOf(u, now), WorstOf(u.limits);
    Snapshot(Verdict(walls, !Covered(u) && AnyStale(u.limits, now), worst), None, worst, walls)
  }

  method SnapshotFromUsage(u: Usage, now: int) returns (s: Snapshot)
    ensures s == UsageSnapshot(u, now)
  {
    var covered := Covered(u);
    var worst: Option<Worst> := None;
    var walls: seq<Wall> := [];
    var staleFull := false;
    var i := 0;
    while i < |u.limits|
      invariant 0 <= i <= |u.limits|
      invariant worst == WorstOf(u.limits[..i])
      invariant walls == if covered then [] else FullWalls(u.limits[..i], now)
      invariant staleFull <==> !covered && AnyStale(u.limits[..i], now)
    {
      hide WorstOf, FullWalls, AnyStale, KindOf, WallOf, Covered;
      var l := u.limits[i];
      OneMoreLimit(u.limits, i, now);
      OneMoreStale(u.limits, i, now);
      i := i + 1;
      if !Readable(l) { continue; }
      var percent := l.percent.value;
      if worst.None? || percent > worst.value.percent {
        worst := Some(Worst(KindOf(l), percent, l.resets));
      }
      if percent >= 100.0 && !covered && l.resets.Some? && l.resets.value <= now {
        staleFull := true;
      }
      if percent >= 100.0 && !covered && (l.resets.None? || l.resets.value > now) {
        walls := walls + [WallOf(l, now)];
      }
    }
    assert u.limits[..|u.limits|] == u.limits;
    walls := AccountFirst(walls);
    s := Snapshot(Verdict(walls, staleFull, worst), None, worst, walls);
  }

  lemma OneMoreLimit(limits: seq<Limit>, i: nat, now: int)
    requires i < |limits|
    ensures var l, w := limits[i], WorstOf(limits[..i]);
      && WorstOf(limits[..i + 1]) ==
           (if Readable(l) && (w.None? || l.percent.value > w.value.percent) then
              Some(Worst(KindOf(l), l.percent.value, l.resets))
            else w)
      && FullWalls(limits[..i + 1], now)
           == FullWalls(limits[..i], now) + (if IsWall(l, now) then [WallOf(l, now)] else [])
  {
    hide KindOf, WallOf, IsWall, Readable;
    assert limits[..i + 1][..i] == limits[..i];
  }

  lemma OneMoreStale(limits: seq<Limit>, i: nat, now: int)
    requires i < |limits|
    ensures AnyStale(limits[..i + 1], now) <==> AnyStale(limits[..i], now) || IsStale(limits[i], now)
  {
    hide IsStale;
    assert limits[..i + 1] == limits[..i] + [limits[i]];
    if j :| 0 <= j < i && IsStale(limits[..i][j], now) { assert IsStale(limits[..i + 1][j], now); }
    if IsStale(limits[i], now) { assert IsStale(limits[..i + 1][i], now); }
  }

  // ----- what the verdict means -----

  lemma {:induction false} OfScopeIs(walls: seq<Wall>, scoped: bool)
    ensures forall w :: w in OfScope(walls, scoped) <==> w in walls && w.scope.Some? == scoped
    ensures multiset(OfScope(walls, scoped)) <= multiset(walls)
  {
    if walls != [] {
      OfScopeIs(walls[1..], scoped);
      assert walls == [walls[0]] + walls[1..];
    }
  }

  lemma {:induction false} BothScopes(walls: seq<Wall>)
    ensures multiset(OfScope(walls, false)) + multiset(OfScope(walls, true)) == multiset(walls)
  {
    if walls != [] {
      BothScopes(walls[1..]);
      assert walls == [walls[0]] + walls[1..];
    }
  }

  /** None is lost by putting the account's own first. */
  lemma AccountFirstKeepsAll(walls: seq<Wall>)
    ensures multiset(AccountFirst(walls)) == multiset(walls)
  {
    BothScopes(walls);
  }

  lemma {:induction false} FullWallsAre(limits: seq<Limit>, now: int)
    ensures forall w :: w in FullWalls(limits, now) <==>
              exists i :: 0 <= i < |limits| && IsWall(limits[i], now) && WallOf(limits[i], now) == w
    ensures forall w :: w in FullWalls(limits, now) ==> w.until > now
  {
    hide ScopeOf, KindOf;
    if limits != [] {
      var n := |limits| - 1;
      var before := limits[..n];
      FullWallsAre(before, now);
      forall w ensures w in FullWalls(limits, now) <==>
                 exists i :: 0 <= i < |limits| && IsWall(limits[i], now) && WallOf(limits[i], now) == w
      {
        if i :| 0 <= i < |limits| && IsWall(limits[i], now) && WallOf(limits[i], now) == w {
          if i < n { assert IsWall(before[i], now) && WallOf(before[i], now) == w; }
        }
        if w in FullWalls(before, now) {
          var i :| 0 <= i < n && IsWall(before[i], now) && WallOf(before[i], now) == w;
          assert IsWall(limits[i], now);
        }
      }
    }
  }

  /** The walls told are the windows found full, each running past now, the account's own first. */
  lemma WallsAreTheFullWindows(u: Usage, now: int)
    ensures var walls := UsageSnapshot(u, now).walls;
      && (forall w :: w in walls ==> w.until > now)
      && (forall w :: w in walls <==>
            !Covered(u) && exists i :: 0 <= i < |u.limits| && IsWall(u.limits[i], now) && WallOf(u.limits[i], now) == w)
      && (forall i, j :: 0 <= i < j < |walls| && walls[j].scope.None? ==> walls[i].scope.None?)
  {
    hide IsWall, WallOf, Verdict, WorstOf, AnyStale;
    var all := FullWalls(u.limits, now);
    FullWallsAre(u.limits, now);
    OfScopeIs(all, false);
    OfScopeIs(all, true);
    hide FullWalls, OfScope;
    var walls := UsageSnapshot(u, now).walls;
    if !Covered(u) {
      assert walls == OfScope(all, false) + OfScope(all, true);
      AccountPartFirst(OfScope(all, false), OfScope(all, true));
    }
  }

  lemma AccountPartFirst(a: seq<Wall>, b: seq<Wall>)
    requires (forall w :: w in a ==> w.scope.None?) && forall w :: w in b ==> w.scope.Some?
    ensures forall i, j :: 0 <= i < j < |a + b| && (a + b)[j].scope.None? ==> (a + b)[i].scope.None?
  {
    var all := a + b;
    forall j | |a| <= j < |all| ensures all[j].scope.Some? {
      assert all[j] == b[j - |a|] && b[j - |a|] in b;
    }
  }

  /** A seat is out exactly when a turn that asks for no model in particular is blocked. */
  lemma FullIffBlocked(u: Usage, now: int)
    ensures UsageSnapshot(u, now).state.Full? <==> Blocks(UsageSnapshot(u, now).walls, None).Some?
    ensures Blocks(UsageSnapshot(u, now).walls, None).Some? ==>
              var w := Blocks(UsageSnapshot(u, now).walls, None).value;
              UsageSnapshot(u, now).state == Full(w.kind, w.until) && w.until > now
  {
    WallsAreTheFullWindows(u, now);
    hide WallsOf, WorstOf, AnyStale, Covered;
  }

  /** The worst window is the fullest of those that could be read, the first of them when several are. */
  lemma {:induction false} WorstIsTheFullest(limits: seq<Limit>)
    ensures WorstOf(limits).None? <==> forall i :: 0 <= i < |limits| ==> !Readable(limits[i])
    ensures WorstOf(limits).Some? ==> exists i :: Fullest(limits, i) && WorstOf(limits).value == WorstAt(limits[i])
  {
    hide Readable, WorstAt, WorstOf, Fullest;
    if limits == [] {
      NoWorst();
    } else {
      var n := |limits| - 1;
      var before := limits[..n];
      WorstIsTheFullest(before);
      NewWorst(limits);
      assert forall i :: 0 <= i < n ==> before[i] == limits[i];
      if WorstOf(before).Some? {
        var i :| Fullest(before, i) && WorstOf(before).value == WorstAt(before[i]);
        FullestOnward(limits, i);
      } else if Readable(limits[n]) {
        OnlyOne(limits);
      }
    }
  }

  /** Of those that could be read none is fuller, and none before it as full. */
  predicate Fullest(limits: seq<Limit>, i: int): (fullest: bool)
    ensures fullest ==> 0 <= i < |limits| && Readable(limits[i])
  {
    && 0 <= i < |limits| && Readable(limits[i])
    && (forall j :: 0 <= j < |limits| && Readable(limits[j]) ==>
          limits[j].percent.value <= limits[i].percent.value
          && (j < i ==> limits[j].percent.value < limits[i].percent.value))
  }

  function WorstAt(l: Limit): Worst
    requires Readable(l)
  {
    Worst(KindOf(l), l.percent.value, l.resets)
  }

  lemma NoWorst()
    ensures WorstOf([]).None?
  {
  }

  lemma NewWorst(limits: seq<Limit>)
    requires limits != []
    ensures var l, was := limits[|limits| - 1], WorstOf(limits[..|limits| - 1]);
      WorstOf(limits)
        == if Readable(l) && (was.None? || WorstAt(l).percent > was.value.percent) then Some(WorstAt(l)) else was
  {
  }

  lemma FullestOnward(limits: seq<Limit>, i: int)
    requires limits != [] && Fullest(limits[..|limits| - 1], i)
    ensures Readable(limits[i])
    ensures var l := limits[|limits| - 1];
      Fullest(limits, if Readable(l) && WorstAt(l).percent > WorstAt(limits[i]).percent then |limits| - 1 else i)
  {
    hide KindOf;
    var n := |limits| - 1;
    assert forall j :: 0 <= j < n ==> limits[..n][j] == limits[j];
  }

  lemma OnlyOne(limits: seq<Limit>)
    requires limits != [] && Readable(limits[|limits| - 1])
    requires forall j :: 0 <= j < |limits| - 1 ==> !Readable(limits[j])
    ensures Fullest(limits, |limits| - 1)
  {
  }
}
