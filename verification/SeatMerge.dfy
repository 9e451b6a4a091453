/**
 Probes and writers on one registry file. A probe loads it, probes without the lock, and merges
 what it found; writers change it under the lock at any time in between.
 */
module SeatMerge {
  import opened Wrappers
  import opened Seats

  // ----- laws of one merge -----

  /** The probe changed this mark. */
  predicate Found<T(==)>(before: map<string, T>, after: map<string, T>, k: string) { Look(before, k) != Look(after, k) }

  lemma TwiceIsOnce<T>(current: map<string, T>, before: map<string, T>, after: map<string, T>, same: set<string>)
    ensures var once := Merged(current, before, after, same); Merged(once, before, after, same) == once
  {
    var once := Merged(current, before, after, same);
    SameMarks(Merged(once, before, after, same), once);
  }

  lemma MarksCommute<T>(current: map<string, T>, b1: map<string, T>, a1: map<string, T>, s1: set<string>,
                        b2: map<string, T>, a2: map<string, T>, s2: set<string>)
    requires forall k :: !(Found(b1, a1, k) && Found(b2, a2, k))
    ensures Merged(Merged(current, b1, a1, s1), b2, a2, s2) == Merged(Merged(current, b2, a2, s2), b1, a1, s1)
  {
    var m, n := Merged(Merged(current, b1, a1, s1), b2, a2, s2), Merged(Merged(current, b2, a2, s2), b1, a1, s1);
    forall k ensures Look(m, k) == Look(n, k) {
      assert !(Found(b1, a1, k) && Found(b2, a2, k));
    }
    SameMarks(m, n);
  }

  /** Merging the same probe again changes nothing. */
  lemma MergingTwice(current: Records, before: Records, after: Records)
    ensures var once := MergedInto(current, before, after); MergedInto(once, before, after) == once
  {
    hide Merged;
    var same := Unchanged(current.accounts, before.accounts);
    TwiceIsOnce(current.exhausted, before.exhausted, after.exhausted, same);
    TwiceIsOnce(current.signedOut, before.signedOut, after.signedOut, same);
  }

  /** Probes that changed no mark in common can be merged in either order. */
  lemma DisjointProbesCommute(current: Records, b1: Records, a1: Records, b2: Records, a2: Records)
    requires forall k :: !(Found(b1.exhausted, a1.exhausted, k) && Found(b2.exhausted, a2.exhausted, k))
    requires forall k :: !(Found(b1.signedOut, a1.signedOut, k) && Found(b2.signedOut, a2.signedOut, k))
    ensures MergedInto(MergedInto(current, b1, a1), b2, a2) == MergedInto(MergedInto(current, b2, a2), b1, a1)
  {
    hide Merged, Found;
    var s1, s2 := Unchanged(current.accounts, b1.accounts), Unchanged(current.accounts, b2.accounts);
    MarksCommute(current.exhausted, b1.exhausted, a1.exhausted, s1, b2.exhausted, a2.exhausted, s2);
    MarksCommute(current.signedOut, b1.signedOut, a1.signedOut, s1, b2.signedOut, a2.signedOut, s2);
  }

  /** With nobody else writing, what the probe found on its seats is what is kept. */
  lemma AloneItLands(before: Records, after: Records, k: string)
    requires Unique(before.accounts) && Get(before.accounts, k).Some?
    ensures Look(MergedInto(before, before, after).exhausted, k) == Look(after.exhausted, k)
    ensures Look(MergedInto(before, before, after).signedOut, k) == Look(after.signedOut, k)
  {
    UnchangedIsSame(before.accounts, before.accounts, k);
  }

  lemma {:induction false} GetIsTheOne(accounts: seq<Account>, i: nat)
    requires Unique(accounts) && i < |accounts|
    ensures Get(accounts, accounts[i].name) == Some(accounts[i])
  {
    if i > 0 { GetIsTheOne(accounts[1..], i - 1); }
  }

  lemma UnchangedIsSame(current: seq<Account>, before: seq<Account>, k: string)
    requires Unique(before)
    ensures k in Unchanged(current, before) <==> SameIdentity(Get(current, k), Get(before, k))
  {
    hide Get;
    forall i | 0 <= i < |before| ensures Get(before, before[i].name) == Some(before[i]) { GetIsTheOne(before, i); }
    if SameIdentity(Get(current, k), Get(before, k)) {
      var i :| 0 <= i < |before| && before[i].name == k;
      assert before[i].name in Unchanged(current, before);
    }
  }

  // ----- any interleaving -----

  /** The file, and what each probe under way loaded. */
  datatype World = World(disk: Records, probes: map<nat, Records>)

  datatype Step = Writes(to: Records) | Loads(p: nat) | Merges(p: nat, after: Records)

  /** Reading the file normalizes its rows. */
  function Loaded(disk: Records): Records { disk.(accounts := Normalized(disk.accounts)) }

  predicate Can(w: World, a: Step) { a.Merges? ==> a.p in w.probes }

  function Do(w: World, a: Step): World
    requires Can(w, a)
  {
    match a
    case Writes(to) => w.(disk := to)
    case Loads(p) => w.(probes := w.probes[p := Loaded(w.disk)])
    case Merges(p, after) => w.(disk := MergedInto(Loaded(w.disk), w.probes[p], after))
  }

  predicate Runs(w: World, acts: seq<Step>)
    decreases acts
  {
    acts == [] || (Can(w, acts[0]) && Runs(Do(w, acts[0]), acts[1..]))
  }

  function After(w: World, acts: seq<Step>): World
    requires Runs(w, acts)
    decreases acts
  {
    if acts == [] then w else After(Do(w, acts[0]), acts[1..])
  }

  lemma {:induction false} ProbeRemembers(w: World, acts: seq<Step>, p: nat)
    requires Runs(w, acts) && p in w.probes && Loads(p) !in acts
    ensures p in After(w, acts).probes && After(w, acts).probes[p] == w.probes[p]
    decreases acts
  {
    hide Loaded, MergedInto;
    if acts != [] {
      assert acts[0] in acts;
      assert forall a :: a in acts[1..] ==> a in acts;
      ProbeRemembers(Do(w, acts[0]), acts[1..], p);
    }
  }

  // ----- one mark over a whole run -----

  /** Which of the two marks of a name. */
  datatype Which = TheWall | TheRefusal

  datatype Mark = Wall(wall: Exhausted) | Refusal(refusal: SignedOut)

  function MarkAt(r: Records, which: Which, k: string): Option<Mark> {
    match which
    case TheWall => if k in r.exhausted then Some(Wall(r.exhausted[k])) else None
    case TheRefusal => if k in r.signedOut then Some(Refusal(r.signedOut[k])) else None
  }

  /** The name stands for the seat it stood for. */
  predicate SameSeat(disk: Records, was: Records, k: string) {
    var a, b := Get(Normalized(disk.accounts), k), Get(Normalized(was.accounts), k);
    a.Some? && b.Some? && a.value.dir == b.value.dir && a.value.addedAt == b.value.addedAt
  }

  /** A merge, mark by mark. */
  lemma MergedMarkAt(disk: Records, before: Records, after: Records, which: Which, k: string)
    ensures var was, now := MarkAt(disk, which, k), MarkAt(MergedInto(Loaded(disk), before, after), which, k);
      && (now != was <==> && k in Unchanged(Normalized(disk.accounts), before.accounts)
                          && was == MarkAt(before, which, k) && MarkAt(after, which, k) != was)
      && (now != was ==> now == MarkAt(after, which, k))
  {
    hide Unchanged, Normalized, Merged;
    var m := MergedInto(Loaded(disk), before, after);
    assert Look(m.exhausted, k).Some? <==> k in m.exhausted;
    assert Look(m.signedOut, k).Some? <==> k in m.signedOut;
  }

  /**
   In any interleaving, a merge changes a mark exactly where the probe found another than it loaded, the
   mark there now is still that one, and the name stands for the same seat; it then becomes what the probe
   found. What anyone else changed meanwhile stays, and so do the rows.
   */
  lemma NoLostUpdate(w: World, mid: seq<Step>, p: nat, after: Records, which: Which, k: string)
    requires Runs(Do(w, Loads(p)), mid) && Loads(p) !in mid
    ensures var t := After(Do(w, Loads(p)), mid);
      && Can(t, Merges(p, after))
      && var u := Do(t, Merges(p, after));
         var was, now, loaded, found :=
           MarkAt(t.disk, which, k), MarkAt(u.disk, which, k), MarkAt(w.disk, which, k), MarkAt(after, which, k);
         && u.disk.accounts == Normalized(t.disk.accounts)
         && (now != was <==> found != loaded && was == loaded && SameSeat(t.disk, w.disk, k))
         && (now != was ==> now == found)
  {
    hide Merged, Normalized, Unchanged;
    var v := Do(w, Loads(p));
    ProbeRemembers(v, mid, p);
    var t := After(v, mid);
    NormalForm(w.disk.accounts);
    UnchangedIsSame(Normalized(t.disk.accounts), Normalized(w.disk.accounts), k);
    MergedMarkAt(t.disk, t.probes[p], after, which, k);
  }

  /** The mark as it is after so many steps. */
  function MarkAfter(w: World, acts: seq<Step>, n: nat, which: Which, k: string): Option<Mark>
    requires n <= |acts| && Runs(w, acts)
  {
    RunsSoFar(w, acts, n);
    MarkAt(After(w, acts[..n]).disk, which, k)
  }

  lemma {:induction false} RunsSoFar(w: World, acts: seq<Step>, n: nat)
    requires n <= |acts| && Runs(w, acts)
    ensures Runs(w, acts[..n])
    ensures n < |acts| ==> Can(After(w, acts[..n]), acts[n]) && Runs(w, acts[..n + 1])
    ensures n < |acts| ==> After(w, acts[..n + 1]) == Do(After(w, acts[..n]), acts[n])
    decreases acts
  {
    hide Do, Can;
    if n > 0 {
      assert acts[..n][1..] == acts[1..][..n - 1];
      RunsSoFar(Do(w, acts[0]), acts[1..], n - 1);
      if n < |acts| { assert acts[..n + 1][1..] == acts[1..][..n]; }
    } else if acts != [] {
      assert acts[..1][1..] == [] && acts[..0] == [];
      assert Runs(w, []) && After(w, []) == w;
      assert After(Do(w, acts[0]), []) == Do(w, acts[0]);
    }
  }

  /** A probe at work either loaded in this run or is as it was at its start. */
  lemma {:induction false} OldOrLoaded(w: World, acts: seq<Step>, n: nat, p: nat)
    requires n <= |acts| && Runs(w, acts)
    ensures Runs(w, acts[..n])
    ensures p in After(w, acts[..n]).probes ==>
              Loads(p) in acts[..n] || (p in w.probes && After(w, acts[..n]).probes[p] == w.probes[p])
    decreases n
  {
    RunsSoFar(w, acts, n);
    if n == 0 {
      assert acts[..0] == [];
    } else {
      OldOrLoaded(w, acts, n - 1, p);
      RunsSoFar(w, acts, n - 1);
      hide Runs, After, Loaded, MergedInto;
      assert acts[..n] == acts[..n - 1] + [acts[n - 1]];
    }
  }

  /** No probe under way loaded the mark that is there now. */
  predicate NewMark(w: World, which: Which, k: string) {
    forall p :: p in w.probes ==> MarkAt(w.probes[p], which, k) != MarkAt(w.disk, which, k)
  }

  /** The n-th step of the run is a write, or merges a probe that loaded earlier in the run. */
  predicate WriteOrNewProbe(acts: seq<Step>, n: nat)
    requires n < |acts|
  {
    acts[n].Writes? || (acts[n].Merges? && Loads(acts[n].p) in acts[..n])
  }

  /**
   A mark that no probe under way had loaded: over any run, other writers and new probes in between, each
   step that takes it away is a write of that mark, or the merge of a probe that loaded after it was put in.
   */
  lemma OnlyNewerChangesIt(w: World, acts: seq<Step>, n: nat, which: Which, k: string)
    requires Runs(w, acts) && n < |acts| && NewMark(w, which, k)
    requires MarkAfter(w, acts, n, which, k) == MarkAt(w.disk, which, k) != MarkAfter(w, acts, n + 1, which, k)
    ensures WriteOrNewProbe(acts, n)
  {
    hide Runs, After, MarkAt;
    RunsSoFar(w, acts, n);
    var s := After(w, acts[..n]);
    match acts[n] {
      case Writes(_) =>
      case Loads(_) =>
      case Merges(p, after) =>
        OldOrLoaded(w, acts, n, p);
        MergedMarkAt(s.disk, s.probes[p], after, which, k);
    }
  }

  /** So a mark that is gone at the end of a run was first taken away by one of those. */
  lemma {:induction false} NewerMarkWins(w: World, acts: seq<Step>, m: nat, which: Which, k: string) returns (n: nat)
    requires Runs(w, acts) && m <= |acts| && NewMark(w, which, k)
    requires MarkAfter(w, acts, m, which, k) != MarkAt(w.disk, which, k)
    ensures n < m && WriteOrNewProbe(acts, n)
    ensures forall i: nat :: i <= n ==> MarkAfter(w, acts, i, which, k) == MarkAt(w.disk, which, k)
    ensures MarkAfter(w, acts, n + 1, which, k) != MarkAt(w.disk, which, k)
    decreases m
  {
    hide Runs, MarkAt, NewMark;
    AtFirst(w, acts, which, k);
    if i: nat :| i < m && MarkAfter(w, acts, i, which, k) != MarkAt(w.disk, which, k) {
      n := NewerMarkWins(w, acts, i, which, k);
    } else {
      n := m - 1;
      OnlyNewerChangesIt(w, acts, n, which, k);
    }
  }

  lemma AtFirst(w: World, acts: seq<Step>, which: Which, k: string)
    requires Runs(w, acts)
    ensures MarkAfter(w, acts, 0, which, k) == MarkAt(w.disk, which, k)
  {
    assert acts[..0] == [];
  }
}
