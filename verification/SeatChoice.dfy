/** Choosing the seat a turn runs on, listing them all, and handing a turn over when one refuses it. */
module SeatChoice {
  import opened Wrappers
  import opened Seats
  import opened SeatVerdict
  import opened SeatRecords

  /** What the seats would say this moment, the time, and the model the turn asks for. */
  datatype Scene = Scene(seen: Account -> Snapshot, onFile: Account -> Option<string>, now: int, clock: int,
                         model: Option<string>)

  datatype Reason =
    NotHere | NoLogin | LoginRefused | Illegible(why: string) | TurnedAway(status: nat) | OutOf(wall: Wall)

  /** Why a seat was passed over. */
  datatype Issue = Issue(account: string, reason: Reason)

  /** A registry's marks once those rolled over are gone. */
  function Fresh(reg: Records, now: int): Records { reg.(exhausted := Pruned(reg.exhausted, now)) }

  /** The verdict on a seat. */
  function Told(reg: Records, a: Account, sc: Scene): Snapshot {
    SnapAfter(MarksOf(reg, a.name), sc.seen(a), sc.onFile(a), sc.now)
  }

  /** Why that verdict keeps this turn off the seat, if it does. */
  function IssueOf(a: Account, told: Snapshot, model: Option<string>): (r: Option<Issue>)
    ensures r.Some? ==> r.value.account == a.name
  {
    match told.state
    case NoCredential => Some(Issue(a.name, NoLogin))
    case AuthRefused => Some(Issue(a.name, LoginRefused))
    case CredentialUnreadable(why) => Some(Issue(a.name, Illegible(why)))
    case Rejected(status) => Some(Issue(a.name, TurnedAway(status)))
    case _ =>
      var w := Blocks(told.walls, model);
      if w.Some? then Some(Issue(a.name, OutOf(w.value))) else None
  }

  function IssueWith(reg: Records, a: Account, sc: Scene): (r: Option<Issue>)
    ensures r.Some? ==> r.value.account == a.name
  {
    IssueOf(a, Told(reg, a, sc), sc.model)
  }

  /** The registry after these seats were looked at. */
  ghost predicate LookedAt(reg: Records, was: Records, seats: seq<Account>, sc: Scene) {
    && reg.accounts == was.accounts
    && forall k :: MarksOf(reg, k) ==
         var a := Get(seats, k);
         if a.Some? then MarksAfter(MarksOf(was, k), sc.seen(a.value), sc.onFile(a.value), sc.clock)
         else MarksOf(was, k)
  }

  lemma {:induction false} GetOfMore(seats: seq<Account>, a: Account, k: string)
    requires Get(seats, a.name).None?
    ensures Get(seats + [a], k) == if k == a.name then Some(a) else Get(seats, k)
  {
    if seats == [] {
      assert seats + [a] == [a];
    } else {
      assert (seats + [a])[1..] == seats[1..] + [a];
      if seats[0].name != k {
        assert forall i :: 0 <= i < |seats[1..]| ==> seats[1..][i] == seats[i + 1];
        GetOfMore(seats[1..], a, k);
      }
    }
  }

  lemma OneMoreLook(reg: Records, was: Records, seats: seq<Account>, a: Account, sc: Scene, next: Records)
    requires LookedAt(reg, was, seats, sc) && Get(seats, a.name).None?
    requires OnlyMarks(next, reg, a.name, MarksAfter(MarksOf(reg, a.name), sc.seen(a), sc.onFile(a), sc.clock))
    ensures LookedAt(next, was, seats + [a], sc) && MarksOf(reg, a.name) == MarksOf(was, a.name)
  {
    hide MarksAfter, MarksOf, Get;
    forall k ensures Get(seats + [a], k) == if k == a.name then Some(a) else Get(seats, k) { GetOfMore(seats, a, k); }
  }

  lemma NotYet(order: seq<Account>, i: nat)
    requires Unique(order) && i < |order|
    ensures Get(order[..i], order[i].name).None?
  {
  }

  /** Each of the first seats was passed over, for its own reason. */
  predicate PassedOver(order: seq<Account>, reg: Records, sc: Scene, issues: seq<Issue>) {
    |issues| <= |order| && forall i :: 0 <= i < |issues| ==> IssueWith(reg, order[i], sc) == Some(issues[i])
  }

  /** The first seat nothing keeps the turn off, and why each before it was passed over. */
  predicate FirstOf(order: seq<Account>, reg: Records, sc: Scene, pick: Option<Account>, issues: seq<Issue>) {
    && PassedOver(order, reg, sc, issues)
    && (pick.None? ==> |issues| == |order|)
    && (pick.Some? ==> && |issues| < |order| && pick.value == order[|issues|]
                       && IssueWith(reg, pick.value, sc).None?)
  }

  method FirstUsable(reg: Registry, order: seq<Account>, sc: Scene)
    returns (pick: Option<Account>, skipped: seq<Issue>, dirty: bool)
    requires Unique(order)
    modifies reg
    ensures FirstOf(order, old(reg.Value()), sc, pick, skipped)
    ensures LookedAt(reg.Value(), old(reg.Value()), order[..|skipped| + if pick.Some? then 1 else 0], sc)
    ensures !dirty ==> reg.Value() == old(reg.Value())
  {
    hide *;
    ghost var was := reg.Value();
    skipped, dirty := [], false;
    var i := 0;
    NoneLookedAt(was, order, sc);
    while i < |order|
      invariant 0 <= i == |skipped| <= |order|
      invariant PassedOver(order, was, sc, skipped)
      invariant LookedAt(reg.Value(), was, order[..i], sc)
      invariant !dirty ==> reg.Value() == was
    {
      var a := order[i];
      ghost var before := reg.Value();
      NotYet(order, i);
      var snap := sc.seen(a);
      var told, changed := Reconcile(reg, a.name, snap, sc.onFile(a), sc.now, sc.clock);
      Looked(before, was, order, i, sc, reg.Value(), told, changed, snap);
      dirty := dirty || changed;
      var issue := IssueOf(a, told, sc.model);
      if issue.None? {
        AllPassedOver(order, was, sc, Some(a), skipped);
        return Some(a), skipped, dirty;
      }
      OneMorePassedOver(order, was, sc, skipped, issue.value);
      skipped := skipped + [issue.value];
      i := i + 1;
    }
    AllPassedOver(order, was, sc, None, skipped);
    pick := None;
  }

  lemma NoneLookedAt(was: Records, order: seq<Account>, sc: Scene)
    ensures LookedAt(was, was, order[..0], sc) && PassedOver(order, was, sc, [])
  {
  }

  lemma Looked(before: Records, was: Records, order: seq<Account>, i: nat, sc: Scene, after: Records, told: Snapshot,
               changed: bool, snap: Snapshot)
    requires i < |order| && LookedAt(before, was, order[..i], sc) && Get(order[..i], order[i].name).None?
    requires snap == sc.seen(order[i])
    requires var a := order[i];
      && OnlyMarks(after, before, a.name, MarksAfter(MarksOf(before, a.name), snap, sc.onFile(a), sc.clock))
      && told == SnapAfter(MarksOf(before, a.name), snap, sc.onFile(a), sc.now)
      && (changed <==> MarksOf(after, a.name) != MarksOf(before, a.name))
    ensures LookedAt(after, was, order[..i + 1], sc)
    ensures told == Told(was, order[i], sc)
    ensures IssueOf(order[i], told, sc.model) == IssueWith(was, order[i], sc)
    ensures !changed ==> after == before
  {
    hide LookedAt, MarksAfter, SnapAfter, IssueOf;
    OneMoreLook(before, was, order[..i], order[i], sc, after);
    assert order[..i + 1] == order[..i] + [order[i]];
    if !changed { SameRecords(after, before, order[i].name); }
  }

  lemma SameRecords(a: Records, b: Records, name: string)
    requires OnlyMarks(a, b, name, MarksOf(b, name))
    ensures a == b
  {
    forall k ensures Look(a.exhausted, k) == Look(b.exhausted, k) && Look(a.signedOut, k) == Look(b.signedOut, k) {
      assert MarksOf(a, k) == MarksOf(b, k);
    }
    SameMarks(a.exhausted, b.exhausted);
    SameMarks(a.signedOut, b.signedOut);
  }

  lemma OneMorePassedOver(order: seq<Account>, reg: Records, sc: Scene, issues: seq<Issue>, issue: Issue)
    requires PassedOver(order, reg, sc, issues) && |issues| < |order|
    requires IssueWith(reg, order[|issues|], sc) == Some(issue)
    ensures PassedOver(order, reg, sc, issues + [issue])
  {
    hide IssueWith;
  }

  lemma AllPassedOver(order: seq<Account>, reg: Records, sc: Scene, pick: Option<Account>, issues: seq<Issue>)
    requires PassedOver(order, reg, sc, issues)
    requires pick.None? ==> |issues| == |order|
    requires pick.Some? ==> |issues| < |order| && pick.value == order[|issues|] && IssueWith(reg, pick.value, sc).None?
    ensures FirstOf(order, reg, sc, pick, issues)
  {
  }

  // ----- listing and choosing -----

  datatype Row = Row(account: Account, told: Snapshot, held: Option<Exhausted>)

  /** Every seat with its verdict, and the mark that still holds it. */
  predicate Listed(rows: seq<Row>, reg: Records, sc: Scene) {
    && |rows| == |reg.accounts|
    && forall i :: 0 <= i < |rows| ==>
         var a := reg.accounts[i];
         rows[i] == Row(a, Told(reg, a, sc),
                        ActiveAt(MarksAfter(MarksOf(reg, a.name), sc.seen(a), sc.onFile(a), sc.clock).wall, sc.now))
  }

  method ListStates(reg: Registry, sc: Scene) returns (rows: seq<Row>, dirty: bool)
    requires Unique(reg.accounts)
    modifies reg
    ensures Listed(rows, Fresh(old(reg.Value()), sc.now), sc)
    ensures LookedAt(reg.Value(), Fresh(old(reg.Value()), sc.now), old(reg.accounts), sc)
    ensures !dirty ==> reg.Value() == old(reg.Value())
  {
    hide MarksAfter, SnapAfter, Pruned, LookedAt, OnlyMarks;
    ghost var start := reg.Value();
    dirty := reg.Prune(sc.now);
    ghost var was := reg.Value();
    if !dirty { NothingPruned(start.exhausted, sc.now); }
    var accounts := reg.accounts;
    rows := [];
    var i := 0;
    NoneLookedAt(was, accounts, sc);
    while i < |accounts|
      invariant 0 <= i == |rows| <= |accounts|
      invariant forall j :: 0 <= j < i ==>
                  var a := accounts[j];
                  rows[j] == Row(a, Told(was, a, sc),
                                 ActiveAt(MarksAfter(MarksOf(was, a.name), sc.seen(a), sc.onFile(a), sc.clock).wall,
                                          sc.now))
      invariant LookedAt(reg.Value(), was, accounts[..i], sc)
      invariant !dirty ==> reg.Value() == start
    {
      var a := accounts[i];
      ghost var before := reg.Value();
      NotYet(accounts, i);
      var snap := sc.seen(a);
      var told, changed := Reconcile(reg, a.name, snap, sc.onFile(a), sc.now, sc.clock);
      Looked(before, was, accounts, i, sc, reg.Value(), told, changed, snap);
      HeldAfter(was, accounts, i, sc, reg.Value());
      dirty := dirty || changed;
      rows := rows + [Row(a, told, ActiveAt(Look(reg.exhausted, a.name), sc.now))];
      i := i + 1;
    }
    assert accounts[..i] == accounts;
  }

  lemma HeldAfter(was: Records, accounts: seq<Account>, i: nat, sc: Scene, after: Records)
    requires i < |accounts| && Unique(accounts) && LookedAt(after, was, accounts[..i + 1], sc)
    ensures var a := accounts[i];
      Look(after.exhausted, a.name) == MarksAfter(MarksOf(was, a.name), sc.seen(a), sc.onFile(a), sc.clock).wall
  {
    hide MarksAfter;
    var a := accounts[i];
    NotYet(accounts, i);
    GetOfMore(accounts[..i], a, a.name);
    assert accounts[..i + 1] == accounts[..i] + [a];
    assert MarksOf(after, a.name).wall == Look(after.exhausted, a.name);
  }

  lemma NothingPruned(marks: map<string, Exhausted>, now: int)
    requires forall k :: k in marks ==> marks[k].until > now
    ensures Pruned(marks, now) == marks
  {
  }

  datatype Choice = Choice(account: Option<Account>, preferred: string, skipped: seq<Issue>)

  /** What is said first when the seat asked for is not on this machine. */
  function Absent(reg: Records, preferred: Option<string>): seq<Issue> {
    if preferred.Some? && Get(reg.accounts, preferred.value).None? then [Issue(preferred.value, NotHere)] else []
  }

  method Choose(reg: Registry, preferred: Option<string>, sc: Scene) returns (choice: Choice, dirty: bool)
    modifies reg
    ensures choice.preferred == if preferred.Some? then preferred.value else "default"
    ensures choice.skipped != [] && choice.skipped[0].reason.NotHere? <==>
              preferred.Some? && forall a :: a in old(reg.accounts) ==> a.name != preferred.value
    ensures choice.skipped != [] && choice.skipped[0].reason.NotHere? ==>
              choice.skipped[0].account == preferred.value
    ensures var absent := Absent(old(reg.Value()), preferred);
      && absent <= choice.skipped
      && FirstOf(Ordered(old(reg.accounts), preferred), Fresh(old(reg.Value()), sc.now), sc,
                 choice.account, choice.skipped[|absent|..])
    ensures !dirty ==> reg.Value() == old(reg.Value())
  {
    hide FirstOf, LookedAt, Ordered, Pruned, Unique;
    ghost var start := reg.Value();
    dirty := reg.Prune(sc.now);
    if !dirty { NothingPruned(start.exhausted, sc.now); }
    var name := if preferred.Some? then preferred.value else DEFAULT;
    var skipped: seq<Issue> := [];
    if preferred.Some? && Get(reg.accounts, name).None? {
      skipped := [Issue(name, NotHere)];
    }
    var order := reg.Order(preferred);
    EachNameOnce(reg.accounts, preferred);
    ghost var now := reg.Value();
    var pick, more, changed := FirstUsable(reg, order, sc);
    dirty := dirty || changed;
    choice := Choice(pick, name, skipped + more);
    assert choice.skipped[|skipped|..] == more;
    AllHere(order, now, sc, pick, more);
    assert skipped == [] && more != [] ==> choice.skipped[0] == more[0];
  }

  /** A seat of the order is never passed over as one that is not there. */
  lemma AllHere(order: seq<Account>, reg: Records, sc: Scene, pick: Option<Account>, issues: seq<Issue>)
    requires FirstOf(order, reg, sc, pick, issues)
    ensures issues != [] ==> !issues[0].reason.NotHere?
  {
    hide Told, Blocks;
    if issues != [] { assert IssueWith(reg, order[0], sc) == Some(issues[0]); }
  }

  lemma {:induction false} OnceEach(a: seq<Account>, b: seq<Account>)
    requires multiset(a) == multiset(b)
    ensures forall x :: x in a <==> x in b
  {
    forall x ensures x in a <==> x in b {
      assert x in a <==> x in multiset(a);
      assert x in b <==> x in multiset(b);
    }
  }

  /** The row of a listing that is about a seat. */
  predicate RowSays(rows: seq<Row>, a: Account, model: Option<string>, issue: Option<Issue>) {
    exists i :: 0 <= i < |rows| && rows[i].account == a && IssueOf(a, rows[i].told, model) == issue
  }

  lemma RowFor(rows: seq<Row>, reg: Records, sc: Scene, a: Account)
    requires Listed(rows, reg, sc) && a in reg.accounts
    ensures RowSays(rows, a, sc.model, IssueWith(reg, a, sc))
  {
    hide SnapAfter, MarksAfter, ActiveAt, IssueOf;
    var i :| 0 <= i < |reg.accounts| && reg.accounts[i] == a;
    assert rows[i].account == a && rows[i].told == Told(reg, a, sc);
  }

  /**
   On the same registry at the same moment, the seat chosen is the first, with the preferred one
   put in front, whose row in the listing does not keep the turn off; each seat before it is named
   once, in order, with what its row says; and none is chosen exactly when every row says no.
   */
  lemma ListingAndChoosingAgree(reg: Records, preferred: Option<string>, sc: Scene, rows: seq<Row>,
                                pick: Option<Account>, issues: seq<Issue>)
    requires Unique(reg.accounts)
    requires Listed(rows, Fresh(reg, sc.now), sc)
    requires FirstOf(Ordered(reg.accounts, preferred), Fresh(reg, sc.now), sc, pick, issues)
    ensures var order := Ordered(reg.accounts, preferred);
      && |issues| <= |order|
      && (forall i :: 0 <= i < |issues| ==> RowSays(rows, order[i], sc.model, Some(issues[i])))
      && (pick.Some? ==>
            |issues| < |order| && pick.value == order[|issues|] && RowSays(rows, pick.value, sc.model, None))
      && (pick.None? <==> forall i :: 0 <= i < |rows| ==> IssueOf(rows[i].account, rows[i].told, sc.model).Some?)
  {
    hide SnapAfter, MarksAfter, ActiveAt, IssueOf, Ordered, Pruned;
    var order := Ordered(reg.accounts, preferred);
    var now := Fresh(reg, sc.now);
    OrderedIsAPermutation(reg.accounts, preferred);
    OnceEach(order, reg.accounts);
    forall i | 0 <= i < |order| ensures RowSays(rows, order[i], sc.model, IssueWith(now, order[i], sc)) {
      assert order[i] in reg.accounts;
      RowFor(rows, now, sc, order[i]);
    }
    if pick.None? {
      forall i | 0 <= i < |rows| ensures IssueOf(rows[i].account, rows[i].told, sc.model).Some? {
        assert now.accounts[i] in order;
        var j :| 0 <= j < |order| && order[j] == now.accounts[i];
        assert IssueWith(now, order[j], sc) == Some(issues[j]);
      }
    } else {
      assert pick.value in reg.accounts;
      var i :| 0 <= i < |rows| && rows[i].account == pick.value;
    }
  }

  // ----- when a seat is passed over -----

  /** A window of the account was measured full, nothing paying for what goes over, and it stops this turn. */
  predicate WindowStops(u: Usage, measured: int, model: Option<string>) {
    && !Covered(u)
    && exists i :: 0 <= i < |u.limits| && IsWall(u.limits[i], measured) && Stops(ScopeOf(u.limits[i]), model)
  }

  /** What is remembered keeps this turn off the seat, for the login now on file as far as it is known. */
  predicate RememberedStops(marks: Marks, login: Option<string>, now: int, model: Option<string>) {
    || Refused(marks.refusal, login)
    || (&& marks.wall.Some? && !Replaced(marks.wall.value.credential, login)
        && marks.wall.value.until > now && Stops(marks.wall.value.scope, model))
  }

  lemma WallsStop(u: Usage, measured: int, model: Option<string>)
    ensures Blocks(UsageSnapshot(u, measured).walls, model).Some? <==> WindowStops(u, measured, model)
  {
    WallsAreTheFullWindows(u, measured);
    hide Stops, WallsOf, WorstOf, AnyStale, IsWall, ScopeOf, KindOf, Covered, Verdict;
    var walls := UsageSnapshot(u, measured).walls;
    if Blocks(walls, model).Some? {
      var w := Blocks(walls, model).value;
      var i :| 0 <= i < |u.limits| && IsWall(u.limits[i], measured) && WallOf(u.limits[i], measured) == w;
      assert Stops(ScopeOf(u.limits[i]), model);
    }
    if WindowStops(u, measured, model) {
      var i :| 0 <= i < |u.limits| && IsWall(u.limits[i], measured) && Stops(ScopeOf(u.limits[i]), model);
      var w := WallOf(u.limits[i], measured);
      assert w in walls;
      var j :| 0 <= j < |walls| && walls[j] == w;
      assert Stops(walls[j].scope, model);
    }
  }

  lemma RememberedDecides(marks: Marks, snap: Snapshot, onFile: Option<string>, now: int,
                          a: Account, model: Option<string>)
    requires Blank(snap.state)
    ensures IssueOf(a, SnapAfter(marks, snap, onFile, now), model).Some? <==>
              || Blocks(snap.walls, model).Some?
              || RememberedStops(marks, if snap.credential.Some? then snap.credential else onFile, now, model)
  {
    RememberedStillStops(marks, snap, onFile, now, model);
    BlankIssue(marks, snap, onFile, now, a, model);
    WhatIsLeft(marks, snap, onFile, now);
    hide Stops, Blocks, IssueOf, SnapAfter, MarksAfter, Refused, Replaced, Blank;
  }

  lemma BlankIssue(marks: Marks, snap: Snapshot, onFile: Option<string>, now: int,
                   a: Account, model: Option<string>)
    requires Blank(snap.state)
    ensures var told := SnapAfter(marks, snap, onFile, now);
      IssueOf(a, told, model).Some? <==> told.state.AuthRefused? || Blocks(told.walls, model).Some?
  {
    hide Blocks, MarksAfter, ActiveAt;
  }

  lemma WhatIsLeft(marks: Marks, snap: Snapshot, onFile: Option<string>, now: int)
    requires Blank(snap.state)
    ensures var login := if snap.credential.Some? then snap.credential else onFile;
      var left := MarksAfter(marks, snap, onFile, now);
      && (left.refusal.Some? <==> Refused(marks.refusal, login))
      && left.wall == (if marks.wall.Some? && Replaced(marks.wall.value.credential, login) then None else marks.wall)
  {
  }

  /**
   From the probe to the choice: a seat is passed over exactly when it has no login or was refused or
   cannot be read, or when a full window stops this turn, or when the probe told nothing and what is
   remembered of the login on file does.
   */
  lemma PassedOverIff(marks: Marks, probe: Probe, credential: Option<string>, onFile: Option<string>,
                      measured: int, now: int, a: Account, model: Option<string>)
    ensures var snap := SnapshotOf(probe, measured).(credential := credential);
            var login := if credential.Some? then credential else onFile;
      IssueOf(a, SnapAfter(marks, snap, onFile, now), model).Some? <==>
        match probe
        case NotLoggedIn => true
        case CannotRead(_) => true
        case Http(status) => status == 401 || status == 403 || RememberedStops(marks, login, now, model)
        case Measured(u) =>
          || WindowStops(u, measured, model)
          || (Blank(UsageSnapshot(u, measured).state) && RememberedStops(marks, login, now, model))
        case _ => RememberedStops(marks, login, now, model)
  {
    var snap := SnapshotOf(probe, measured).(credential := credential);
    hide RememberedStops, WindowStops, WallsOf, WorstOf, AnyStale, Covered;
    if Blank(snap.state) { RememberedDecides(marks, snap, onFile, now, a, model); }
    if probe.Measured? { WallsStop(probe.usage, measured, model); }
  }

  /** What is remembered: the refusal is the reason, and else a wall that stops this turn, if any does. */
  predicate MarksTell(marks: Marks, login: Option<string>, a: Account, model: Option<string>, issue: Option<Issue>) {
    if marks.refusal.Some? && (marks.refusal.value.credential.None? || login.None?
                               || marks.refusal.value.credential == login)
    then issue == Some(Issue(a.name, LoginRefused))
    else issue.Some? ==> issue.value.reason.OutOf? && Stops(issue.value.reason.wall.scope, model)
  }

  /** The first wall that stops this turn is the reason, if one does. */
  predicate WallTells(walls: seq<Wall>, a: Account, model: Option<string>, issue: Option<Issue>) {
    var w := Blocks(walls, model);
    issue == if w.Some? then Some(Issue(a.name, OutOf(w.value))) else None
  }

  /** From the probe to the reason given. */
  lemma WhyPassedOver(marks: Marks, probe: Probe, credential: Option<string>, onFile: Option<string>,
                      measured: int, now: int, a: Account, model: Option<string>)
    ensures var snap := SnapshotOf(probe, measured).(credential := credential);
            var login := if credential.Some? then credential else onFile;
            var issue := IssueOf(a, SnapAfter(marks, snap, onFile, now), model);
      match probe
      case NotLoggedIn => issue == Some(Issue(a.name, NoLogin))
      case CannotRead(why) => issue == Some(Issue(a.name, Illegible(why)))
      case Http(status) =>
        if status == 401 then issue == Some(Issue(a.name, LoginRefused))
        else if status == 403 then issue == Some(Issue(a.name, TurnedAway(403)))
        else MarksTell(marks, login, a, model, issue)
      case Measured(u) =>
        if UsageSnapshot(u, measured).state == Unknown then MarksTell(marks, login, a, model, issue)
        else WallTells(UsageSnapshot(u, measured).walls, a, model, issue)
      case _ => MarksTell(marks, login, a, model, issue)
  {
    var snap := SnapshotOf(probe, measured).(credential := credential);
    hide WallsOf, WorstOf, AnyStale, Covered, Blocks, Stops;
    if Blank(snap.state) {
      MarksGiveReason(marks, snap, onFile, now, a, model);
      hide SnapAfter, MarksTell, IssueOf;
    }
  }

  lemma MarksGiveReason(marks: Marks, snap: Snapshot, onFile: Option<string>, now: int,
                        a: Account, model: Option<string>)
    requires Blank(snap.state)
    ensures MarksTell(marks, if snap.credential.Some? then snap.credential else onFile, a, model,
                      IssueOf(a, SnapAfter(marks, snap, onFile, now), model))
  {
    RememberedStillStops(marks, snap, onFile, now, model);
    WhatIsLeft(marks, snap, onFile, now);
    BlankStays(marks, snap, onFile, now);
    hide Stops, Blocks, SnapAfter, MarksAfter;
  }

  lemma BlankStays(marks: Marks, snap: Snapshot, onFile: Option<string>, now: int)
    requires Blank(snap.state)
    ensures var state := SnapAfter(marks, snap, onFile, now).state;
      state.AuthRefused? || state.Full? || state == snap.state
  {
    hide MarksAfter;
  }

  // ----- handing a turn over -----

  /** The seats this turn has not run on. */
  function Untried(accounts: seq<Account>, current: string, tried: seq<string>): seq<Account> {
    if accounts == [] then []
    else if accounts[0].name != current && accounts[0].name !in tried then
      [accounts[0]] + Untried(accounts[1..], current, tried)
    else Untried(accounts[1..], current, tried)
  }

  lemma {:induction false} UntriedIs(accounts: seq<Account>, current: string, tried: seq<string>)
    requires Unique(accounts)
    ensures Unique(Untried(accounts, current, tried))
    ensures forall a :: a in Untried(accounts, current, tried)
                        <==> a in accounts && a.name != current && a.name !in tried
  {
    if accounts != [] {
      UntriedIs(accounts[1..], current, tried);
      assert accounts == [accounts[0]] + accounts[1..];
      assert forall a :: a in accounts[1..] ==> a.name != accounts[0].name;
    }
  }

  method HandOver(reg: Registry, current: string, tried: seq<string>, sc: Scene)
    returns (pick: Option<Account>, skipped: seq<Issue>)
    modifies reg
    ensures FirstOf(Untried(Ordered(old(reg.accounts), None), current, tried), old(reg.Value()), sc, pick, skipped)
  {
    hide FirstOf, LookedAt;
    var order := reg.Order(None);
    EachNameOnce(reg.accounts, None);
    UntriedIs(order, current, tried);
    order := Untried(order, current, tried);
    var dirty;
    pick, skipped, dirty := FirstUsable(reg, order, sc);
  }

  /** An attempt that ended, and what stood on the machine then. */
  datatype Attempt = Attempt(refused: bool, reg: Records, scene: Scene)

  predicate Once(names: seq<string>) { forall i, j :: 0 <= i < j < |names| ==> names[i] != names[j] }

  function NamesOf(accounts: seq<Account>): set<string> { set i | 0 <= i < |accounts| :: accounts[i].name }

  /** Every seat not run on has its reason. */
  predicate AllExplained(reg: Records, tried: seq<string>, why: seq<Issue>) {
    forall a :: a in reg.accounts && a.name !in tried ==> exists i :: 0 <= i < |why| && why[i].account == a.name
  }

  /** Run on one seat after another: each new, on the machine as it then was, the one before having refused. */
  predicate WentOn(first: Account, tried: seq<string>, attempts: nat -> Attempt, machine: set<string>) {
    && tried != [] && tried[0] == first.name && Once(tried)
    && (forall i :: 1 <= i < |tried| ==> tried[i] in machine && tried[i] in NamesOf(attempts(i - 1).reg.accounts))
    && (forall i :: 0 <= i < |tried| - 1 ==> attempts(i).refused)
  }

  lemma GoesOn(first: Account, tried: seq<string>, attempts: nat -> Attempt, machine: set<string>, next: string)
    requires WentOn(first, tried, attempts, machine) && attempts(|tried| - 1).refused
    requires next !in tried && next in machine && next in NamesOf(attempts(|tried| - 1).reg.accounts)
    ensures WentOn(first, tried + [next], attempts, machine)
  {
    hide NamesOf;
  }

  /**
   A turn handed from seat to seat for as long as each refuses it, whatever the registry and the
   probes say each time: it runs on no seat twice, it comes to an end, and if it ends because
   nobody can take over, every seat it did not run on has a reason why.
   */
  method TurnOnSeats(first: Account, attempts: nat -> Attempt, machine: set<string>)
    returns (tried: seq<string>, stuck: bool, why: seq<Issue>)
    requires forall k :: NamesOf(attempts(k).reg.accounts) <= machine
    ensures WentOn(first, tried, attempts, machine)
    ensures stuck <==> attempts(|tried| - 1).refused
    ensures stuck ==> AllExplained(attempts(|tried| - 1).reg, tried, why)
  {
    hide Unique, FirstOf, AllExplained, NamesOf, IssueWith, WentOn, Untried, Set;
    JustStarted(first, attempts, machine);
    tried, stuck, why := [first.name], false, [];
    var current := first;
    while attempts(|tried| - 1).refused
      invariant tried != [] && current.name in tried
      invariant WentOn(first, tried, attempts, machine)
      decreases |machine - Set(tried)|
    {
      var now := attempts(|tried| - 1);
      var reg := new Registry(now.reg);
      var next, skipped := HandOver(reg, current.name, tried, now.scene);
      if next.None? {
        NobodyLeft(now.reg, current.name, tried, now.scene, skipped);
        return tried, true, skipped;
      }
      NextIsNew(now.reg, current.name, tried, now.scene, next.value, skipped, machine);
      GoesOn(first, tried, attempts, machine, next.value.name);
      current := next.value;
      tried := tried + [current.name];
    }
  }

  lemma JustStarted(first: Account, attempts: nat -> Attempt, machine: set<string>)
    ensures WentOn(first, [first.name], attempts, machine)
  {
  }

  function Set(names: seq<string>): set<string> { set i | 0 <= i < |names| :: names[i] }

  lemma NobodyLeft(reg: Records, current: string, tried: seq<string>, sc: Scene, why: seq<Issue>)
    requires current in tried
    requires FirstOf(Untried(Ordered(reg.accounts, None), current, tried), reg, sc, None, why)
    ensures AllExplained(reg, tried, why)
  {
    EachNameOnce(reg.accounts, None);
    UntriedIs(Ordered(reg.accounts, None), current, tried);
    var order := Untried(Ordered(reg.accounts, None), current, tried);
    hide Untried, Ordered;
    forall a | a in reg.accounts && a.name !in tried ensures exists i :: 0 <= i < |why| && why[i].account == a.name {
      var first := Get(Ordered(reg.accounts, None), a.name).value;
      assert first in order;
      var i :| 0 <= i < |order| && order[i] == first;
      assert IssueWith(reg, order[i], sc) == Some(why[i]);
    }
  }

  lemma NextIsNew(reg: Records, current: string, tried: seq<string>, sc: Scene, next: Account, why: seq<Issue>,
                  machine: set<string>)
    requires NamesOf(reg.accounts) <= machine
    requires FirstOf(Untried(Ordered(reg.accounts, None), current, tried), reg, sc, Some(next), why)
    ensures next.name !in tried && next.name in NamesOf(reg.accounts) && next.name in machine
    ensures |machine - Set(tried + [next.name])| < |machine - Set(tried)|
  {
    var order := Ordered(reg.accounts, None);
    EachNameOnce(reg.accounts, None);
    UntriedIs(order, current, tried);
    hide IssueWith, Untried, Ordered;
    assert next in Untried(order, current, tried);
    assert Get(order, next.name).Some?;
    var i :| 0 <= i < |reg.accounts| && reg.accounts[i].name == next.name;
    assert next.name in NamesOf(reg.accounts);
    assert Set(tried + [next.name]) == Set(tried) + {next.name} by { SetOfMore(tried, next.name); }
    assert next.name !in Set(tried);
    assert machine - Set(tried + [next.name]) == machine - Set(tried) - {next.name};
  }

  lemma SetOfMore(names: seq<string>, name: string)
    ensures Set(names + [name]) == Set(names) + {name}
  {
    forall x | x in Set(names) + {name} ensures x in Set(names + [name]) {
      if x == name { assert (names + [name])[|names|] == x; }
      else { var i :| 0 <= i < |names| && names[i] == x; assert (names + [name])[i] == x; }
    }
  }
}
