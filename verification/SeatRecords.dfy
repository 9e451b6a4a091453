/** Reconciling a probe of a seat with what the registry remembers of it. */
module SeatRecords {
  import opened Wrappers
  import opened Seats
  import opened SeatVerdict

  /** How a probe can come out. */
  datatype Probe =
    Measured(usage: Usage) | NotLoggedIn | Http(status: nat) | CannotRead(why: string) | Lapsed | Unreachable

  function SnapshotOf(probe: Probe, now: int): Snapshot {
    match probe
    case Measured(u) => UsageSnapshot(u, now)
    case NotLoggedIn => Bare(NoCredential)
    case CannotRead(why) => Bare(CredentialUnreadable(why))
    case Lapsed => Bare(Idle)
    case Unreachable => Bare(Unknown)
    case Http(status) =>
      if status == 401 then Bare(AuthRefused)
      else if status == 403 then Bare(Rejected(403))
      else Bare(Unknown)
  }

  /** Upstream answered for this seat. */
  predicate Live(s: SeatState) { s.Fine? || s.Full? }

  /** Nothing was learnt of it. */
  predicate Blank(s: SeatState) { s.Unknown? || s.Idle? }

  /** Two credentials, both known, that differ. */
  predicate Replaced(was: Option<string>, now: Option<string>) { was.Some? && now.Some? && was != now }

  /** What is remembered of one seat. */
  datatype Marks = Marks(wall: Option<Exhausted>, refusal: Option<SignedOut>)

  /** Whether the credential on file is the one that was refused, as far as can be told. */
  predicate Refused(m: Option<SignedOut>, fingerprint: Option<string>) {
    m.Some? && (m.value.credential.Some? && fingerprint.Some? ==> m.value.credential == fingerprint)
  }

  function ActiveAt(m: Option<Exhausted>, now: int): Option<Exhausted> {
    if m.Some? && m.value.until > now then m else None
  }

  /** The login a probe's blank answer is about: the one it measured, else the one on file when that matters. */
  function Fingerprint(marks: Marks, snap: Snapshot, onFile: Option<string>): Option<string> {
    if snap.credential.Some? then snap.credential
    else if marks.refusal.Some? || (marks.wall.Some? && marks.wall.value.credential.Some?) then onFile
    else None
  }

  predicate SameWall(m: Exhausted, w: Wall, credential: Option<string>) {
    m.until == w.until && m.kind == w.kind && m.scope == w.scope && m.credential == credential
  }

  /** What is remembered after a probe. */
  function MarksAfter(marks: Marks, snap: Snapshot, onFile: Option<string>, clock: int): Marks {
    if Live(snap.state) then
      Marks(
        if snap.walls == [] then None
        else
          var w := snap.walls[0];
          if marks.wall.Some? && SameWall(marks.wall.value, w, snap.credential) then marks.wall
          else Some(Exhausted(w.until, w.kind, clock, w.scope, snap.credential)),
        None)
    else if Blank(snap.state) then
      var fp := Fingerprint(marks, snap, onFile);
      Marks(
        if marks.wall.Some? && Replaced(marks.wall.value.credential, fp) then None else marks.wall,
        if Refused(marks.refusal, fp) then marks.refusal else None)
    else marks
  }

  /** What a listing or a choice is told of the seat. */
  function SnapAfter(marks: Marks, snap: Snapshot, onFile: Option<string>, now: int): Snapshot {
    if !Blank(snap.state) then snap
    else
      var left := MarksAfter(marks, snap, onFile, now);
      var state := if left.refusal.Some? then AuthRefused else snap.state;
      var active := ActiveAt(left.wall, now);
      if active.None? then snap.(state := state)
      else
        var w := active.value;
        snap.(walls := snap.walls + [Wall(w.kind, w.until, w.scope)],
              state := if w.scope.None? && !state.AuthRefused? then Full(w.kind, w.until) else state)
  }

  function MarksOf(reg: Records, name: string): Marks {
    Marks(Look(reg.exhausted, name), Look(reg.signedOut, name))
  }

  /** The registry as it was but for one seat's marks. */
  ghost predicate OnlyMarks(reg: Records, was: Records, name: string, marks: Marks) {
    && reg.accounts == was.accounts
    && MarksOf(reg, name) == marks
    && (forall k :: k != name ==> MarksOf(reg, k) == MarksOf(was, k))
  }

  /** `now` is the pass's time, `clock` the time marks are made at, `onFile` the credential on file. */
  method Reconcile(reg: Registry, name: string, snap: Snapshot, onFile: Option<string>, now: int, clock: int)
    returns (told: Snapshot, changed: bool)
    modifies reg
    ensures OnlyMarks(reg.Value(), old(reg.Value()), name,
                      MarksAfter(old(MarksOf(reg.Value(), name)), snap, onFile, clock))
    ensures told == SnapAfter(old(MarksOf(reg.Value(), name)), snap, onFile, now)
    ensures changed <==> MarksOf(reg.Value(), name) != old(MarksOf(reg.Value(), name))
  {
    var oldWall, oldAuth := Look(reg.exhausted, name), Look(reg.signedOut, name);
    told := snap;
    if Live(snap.state) {
      reg.signedOut := reg.signedOut - {name};
      if snap.walls != [] {
        var w := snap.walls[0];
        var matches := name in reg.exhausted && SameWall(reg.exhausted[name], w, snap.credential);
        if !matches { reg.MarkExhausted(name, w.kind, w.until, w.scope, snap.credential, clock); }
      } else {
        reg.exhausted := reg.exhausted - {name};
      }
    } else if Blank(snap.state) {
      var fp := snap.credential;
      if fp.None? && (name in reg.signedOut || (name in reg.exhausted && reg.exhausted[name].credential.Some?)) {
        fp := onFile;
      }
      if name in reg.exhausted && Replaced(reg.exhausted[name].credential, fp) {
        reg.exhausted := reg.exhausted - {name};
      }
      if name in reg.signedOut {
        if Refused(Look(reg.signedOut, name), fp) {
          told := told.(state := AuthRefused);
        } else {
          reg.signedOut := reg.signedOut - {name};
        }
      }
      var active := ActiveAt(Look(reg.exhausted, name), now);
      if active.Some? {
        var w := active.value;
        told := told.(walls := told.walls + [Wall(w.kind, w.until, w.scope)]);
        if w.scope.None? && !told.state.AuthRefused? {
          told := told.(state := Full(w.kind, w.until));
        }
      }
    }
    changed := oldWall != Look(reg.exhausted, name) || oldAuth != Look(reg.signedOut, name);
  }

  // ----- what reconciling is for -----

  /** Doing it again with the same probe, at whatever time, changes nothing and tells the same. */
  lemma SameProbeIsAFixpoint(marks: Marks, snap: Snapshot, onFile: Option<string>, now: int, clock: int, later: int)
    ensures var once := MarksAfter(marks, snap, onFile, clock);
      && MarksAfter(once, snap, onFile, later) == once
      && SnapAfter(once, snap, onFile, now) == SnapAfter(marks, snap, onFile, now)
  {
    var once := MarksAfter(marks, snap, onFile, clock);
    if Blank(snap.state) { assert MarksAfter(marks, snap, onFile, now) == once; }
  }

  /**
   A remembered wall goes only on a live answer or for another login: one both known, and not the
   one that hit it.
   */
  lemma WallGoesOnlyOnEvidence(marks: Marks, snap: Snapshot, onFile: Option<string>, clock: int)
    requires marks.wall.Some?
    ensures var was := marks.wall.value; var login := if snap.credential.Some? then snap.credential else onFile;
      MarksAfter(marks, snap, onFile, clock).wall != marks.wall <==>
        || ((snap.state.Fine? || snap.state.Full?)
            && (snap.walls != [] ==>
                  var w := snap.walls[0];
                  w.until != was.until || w.kind != was.kind || w.scope != was.scope
                  || snap.credential != was.credential))
        || ((snap.state.Unknown? || snap.state.Idle?)
            && was.credential.Some? && login.Some? && was.credential != login)
  {
  }

  /** What a live answer leaves: its first wall, since when it was first seen if it is the one remembered. */
  lemma WallIsKept(marks: Marks, snap: Snapshot, onFile: Option<string>, clock: int)
    requires snap.state.Fine? || snap.state.Full?
    ensures var left := MarksAfter(marks, snap, onFile, clock);
      && left.refusal.None? && (left.wall.Some? <==> snap.walls != [])
      && (snap.walls != [] ==>
            var m, w := left.wall.value, snap.walls[0];
            && m.until == w.until && m.kind == w.kind && m.scope == w.scope && m.credential == snap.credential
            && m.at == if marks.wall.Some? && marks.wall.value.(at := m.at) == m then marks.wall.value.at else clock)
  {
  }

  /** What is told of a seat nothing is remembered of, when the probe measured nothing. */
  lemma NothingRemembered(probe: Probe, onFile: Option<string>, measured: int, now: int)
    requires !probe.Measured?
    ensures SnapAfter(Marks(None, None), SnapshotOf(probe, measured), onFile, now) ==
      match probe
      case NotLoggedIn => Snapshot(NoCredential, None, None, [])
      case CannotRead(why) => Snapshot(CredentialUnreadable(why), None, None, [])
      case Lapsed => Snapshot(Idle, None, None, [])
      case Http(401) => Snapshot(AuthRefused, None, None, [])
      case Http(403) => Snapshot(Rejected(403), None, None, [])
      case _ => Snapshot(Unknown, None, None, [])
  {
  }

  /** And so does a remembered refusal. */
  lemma RefusalGoesOnlyOnEvidence(marks: Marks, snap: Snapshot, onFile: Option<string>, clock: int)
    requires marks.refusal.Some?
    ensures MarksAfter(marks, snap, onFile, clock).refusal != marks.refusal <==>
              || snap.state.Fine? || snap.state.Full?
              || ((snap.state.Unknown? || snap.state.Idle?)
                  && var was, login := marks.refusal.value.credential,
                                       if snap.credential.Some? then snap.credential else onFile;
                     was.Some? && login.Some? && was != login)
  {
  }

  /** What is remembered still stops a turn when the probe told nothing. */
  lemma RememberedStillStops(marks: Marks, snap: Snapshot, onFile: Option<string>, now: int, model: Option<string>)
    requires Blank(snap.state)
    ensures var left, told := MarksAfter(marks, snap, onFile, now), SnapAfter(marks, snap, onFile, now);
      && (told.state.AuthRefused? <==> left.refusal.Some?)
      && (Blocks(told.walls, model).Some? <==>
            Blocks(snap.walls, model).Some? || (ActiveAt(left.wall, now).Some? && Stops(left.wall.value.scope, model)))
  {
    hide Stops, Refused, Replaced, Fingerprint;
    var left, told := MarksAfter(marks, snap, onFile, now), SnapAfter(marks, snap, onFile, now);
    if ActiveAt(left.wall, now).Some? {
      var w := Wall(left.wall.value.kind, left.wall.value.until, left.wall.value.scope);
      OneMoreWall(snap.walls, w, model);
      assert told.walls == snap.walls + [w];
    }
  }

  lemma OneMoreWall(walls: seq<Wall>, w: Wall, model: Option<string>)
    ensures Blocks(walls + [w], model).Some? <==> Blocks(walls, model).Some? || Stops(w.scope, model)
  {
    hide Stops;
    if i :| 0 <= i < |walls| && Stops(walls[i].scope, model) { assert Stops((walls + [w])[i].scope, model); }
    if Stops(w.scope, model) { assert Stops((walls + [w])[|walls|].scope, model); }
  }

  /** Of what was measured only the first wall is remembered, and it stops this turn while it lasts. */
  predicate FirstHolds(walls: seq<Wall>, now: int, model: Option<string>) {
    walls != [] && walls[0].until > now && Stops(walls[0].scope, model)
  }

  /**
   After a live measurement, a probe of the same login that tells nothing: a turn is stopped if and only if
   the probe itself stops it or the first wall of the measurement still does. An account-wide one shows.
   */
  lemma MeasuredWallHolds(marks: Marks, first: Snapshot, blank: Snapshot, onFile: Option<string>,
                          clock: int, now: int, model: Option<string>)
    requires Live(first.state) && Blank(blank.state)
    requires !Replaced(first.credential, if blank.credential.Some? then blank.credential else onFile)
    ensures var told := SnapAfter(MarksAfter(marks, first, onFile, clock), blank, onFile, now);
      && !told.state.AuthRefused?
      && (Blocks(told.walls, model).Some? <==> Blocks(blank.walls, model).Some? || FirstHolds(first.walls, now, model))
      && (first.walls != [] && first.walls[0].scope.None? && first.walls[0].until > now ==>
            told.state == Full(first.walls[0].kind, first.walls[0].until))
  {
    hide Stops, Refused;
    var once := MarksAfter(marks, first, onFile, clock);
    RememberedStillStops(once, blank, onFile, now, model);
    NothingRefused(Fingerprint(once, blank, onFile));
  }

  function FullOf(model: Option<string>, until: int): Limit {
    Limit(Some(100.0), Some("weekly"), Some(until), model, None)
  }

  /** Full for Fable and for Opus, the one read first is remembered and the other forgotten. */
  lemma SecondWallIsForgotten(at: int)
    ensures var limits := [FullOf(Some("fable"), at + 100), FullOf(Some("opus"), at + 100)];
            var first := UsageSnapshot(Usage(limits, None, None), at);
            var told := SnapAfter(MarksAfter(Marks(None, None), first, None, at), Bare(Unknown), None, at + 1);
      Live(first.state) && Blocks(first.walls, Some("opus")).Some? && Blocks(told.walls, Some("opus")).None?
  {
    var limits := [FullOf(Some("fable"), at + 100), FullOf(Some("opus"), at + 100)];
    var fable, opus := Wall("weekly", at + 100, Some("fable")), Wall("weekly", at + 100, Some("opus"));
    FableAndOpus();
    TwoFull(limits, at);
    var first := UsageSnapshot(Usage(limits, None, None), at);
    assert first.walls == [fable, opus];
    assert Stops(first.walls[1].scope, Some("opus"));
    MeasuredWallHolds(Marks(None, None), first, Bare(Unknown), None, at, at + 1, Some("opus"));
  }

  /** And so is one for Opus behind one of the whole account that rolls over before it. */
  lemma ScopedBehindAccountIsForgotten(at: int)
    ensures var limits := [FullOf(None, at + 10), FullOf(Some("opus"), at + 100)];
            var first := UsageSnapshot(Usage(limits, None, None), at);
            var told := SnapAfter(MarksAfter(Marks(None, None), first, None, at), Bare(Unknown), None, at + 20);
      Live(first.state) && Blocks(first.walls[1..], Some("opus")).Some? && Blocks(told.walls, Some("opus")).None?
  {
    var limits := [FullOf(None, at + 10), FullOf(Some("opus"), at + 100)];
    var all, opus := Wall("weekly", at + 10, None), Wall("weekly", at + 100, Some("opus"));
    FableAndOpus();
    TwoFull(limits, at);
    var first := UsageSnapshot(Usage(limits, None, None), at);
    assert first.walls == [all, opus];
    assert Stops(first.walls[1..][0].scope, Some("opus"));
    MeasuredWallHolds(Marks(None, None), first, Bare(Unknown), None, at, at + 20, Some("opus"));
  }

  lemma FableAndOpus()
    ensures Lower("fable") == "fable" && Lower("opus") == "opus" && ModelInKind("weekly") == None
    ensures Stops(Some("opus"), Some("opus")) && !Stops(Some("fable"), Some("opus"))
  {
    LowerAlready("fable");
    LowerAlready("opus");
    LowerAlready("weekly");
    NotInFable();
    hide Lower;
    assert At("opus", "opus", 0);
    assert |"weekly"| == 6 && "weekly"[5] == 'y';
  }

  lemma LowerAlready(s: string)
    requires forall i :: 0 <= i < |s| ==> 'a' <= s[i] <= 'z'
    ensures Lower(s) == s
  {
  }

  lemma NotInFable()
    ensures !Contains("fable", "opus") && !Contains("opus", "fable")
  {
    forall i | 0 <= i <= 1 ensures !At("fable", "opus", i) {
      assert "fable"[i..i + 4][0] == "fable"[i] && "opus"[0] == 'o';
    }
  }

  lemma TwoFull(limits: seq<Limit>, at: int)
    requires |limits| == 2 && IsWall(limits[0], at) && IsWall(limits[1], at) && ScopeOf(limits[1]).Some?
    ensures WallsOf(Usage(limits, None, None), at) == [WallOf(limits[0], at), WallOf(limits[1], at)]
    ensures WorstOf(limits).Some? && !AnyStale(limits, at)
  {
    hide IsWall, WallOf;
    var one := limits[..1];
    assert one[..|one| - 1] == [] && limits[..|limits| - 1] == one;
    assert FullWalls(one, at) == [WallOf(limits[0], at)];
    TwoRead(limits, at);
    hide WorstOf, AnyStale;
    var w, v := WallOf(limits[0], at), WallOf(limits[1], at);
    assert FullWalls(limits, at) == [w, v];
    TwoWalls(w, v);
  }

  lemma TwoWalls(w: Wall, v: Wall)
    requires v.scope.Some?
    ensures AccountFirst([w, v]) == [w, v]
  {
    assert [w, v][1..] == [v] && [v][1..] == [];
    assert OfScope([v], true) == [v] && OfScope([v], false) == [];
  }

  lemma TwoRead(limits: seq<Limit>, at: int)
    requires |limits| == 2 && IsWall(limits[0], at) && IsWall(limits[1], at)
    ensures WorstOf(limits).Some? && !AnyStale(limits, at)
    ensures WallOf(limits[1], at).scope == ScopeOf(limits[1])
  {
    hide ScopeOf, KindOf;
  }

  lemma NothingRefused(fp: Option<string>)
    ensures !Refused(None, fp)
  {
  }
}
