/**
 The registry of seats: its rows and the marks on them, and how what a probe found is merged
 into a registry others were writing meanwhile.
 */
module Seats {
  import opened Wrappers

  const DEFAULT := "default"

  datatype Account = Account(name: string, dir: Option<string>, email: Option<string>, addedAt: int)

  /** A window found full, remembered until it rolls over. */
  datatype Exhausted = Exhausted(until: int, kind: string, at: int, scope: Option<string>, credential: Option<string>)

  /** A sign-in that was refused. */
  datatype SignedOut = SignedOut(at: int, credential: Option<string>)

  /** The registry as a value: a copy of it, or what its file holds. */
  datatype Records =
    Records(accounts: seq<Account>, exhausted: map<string, Exhausted>, signedOut: map<string, SignedOut>)

  const DEFAULT_LOGIN := Account(DEFAULT, None, None, 0)

  function Look<T>(m: map<string, T>, k: string): Option<T> { if k in m then Some(m[k]) else None }

  /** The first row of that name. */
  function Get(accounts: seq<Account>, name: string): (r: Option<Account>)
    ensures r.Some? <==> exists i :: 0 <= i < |accounts| && accounts[i].name == name
    ensures r.Some? ==> r.value in accounts && r.value.name == name
  {
    if accounts == [] then None
    else if accounts[0].name == name then Some(accounts[0])
    else Get(accounts[1..], name)
  }

  predicate NameChar(c: char) { 'a' <= c <= 'z' || '0' <= c <= '9' || c == '-' || c == '_' || c == '.' }

  predicate ValidName(s: string) {
    && 0 < |s| <= 32
    && ('a' <= s[0] <= 'z' || '0' <= s[0] <= '9')
    && forall i :: 0 <= i < |s| ==> NameChar(s[i])
  }

  // ----- normal form -----

  predicate Unique(accounts: seq<Account>) {
    forall i, j :: 0 <= i < j < |accounts| ==> accounts[i].name != accounts[j].name
  }

  predicate Proper(a: Account) { a.dir.Some? && ValidName(a.name) }

  /** `default` first and once, every other row with a directory, no name twice. */
  predicate Normal(accounts: seq<Account>) {
    && accounts != [] && accounts[0] == DEFAULT_LOGIN
    && Unique(accounts)
    && forall i :: 1 <= i < |accounts| ==> Proper(accounts[i])
  }

  /** The proper rows of new names, in order. */
  function Kept(rows: seq<Account>, seen: set<string>): seq<Account> {
    if rows == [] then []
    else if Proper(rows[0]) && rows[0].name !in seen then [rows[0]] + Kept(rows[1..], seen + {rows[0].name})
    else Kept(rows[1..], seen)
  }

  function Normalized(rows: seq<Account>): seq<Account> { [DEFAULT_LOGIN] + Kept(rows, {DEFAULT}) }

  lemma {:induction false} KeptIsNormal(rows: seq<Account>, seen: set<string>)
    ensures Unique(Kept(rows, seen))
    ensures forall i :: 0 <= i < |Kept(rows, seen)| ==> Proper(Kept(rows, seen)[i]) && Kept(rows, seen)[i].name !in seen
  {
    hide Proper;
    if rows != [] {
      if Proper(rows[0]) && rows[0].name !in seen {
        KeptIsNormal(rows[1..], seen + {rows[0].name});
      } else {
        KeptIsNormal(rows[1..], seen);
      }
    }
  }

  lemma {:induction false} KeptIsAll(rows: seq<Account>, seen: set<string>)
    requires Unique(rows) && forall i :: 0 <= i < |rows| ==> Proper(rows[i]) && rows[i].name !in seen
    ensures Kept(rows, seen) == rows
  {
    hide Proper;
    if rows != [] {
      assert rows == [rows[0]] + rows[1..];
      KeptIsAll(rows[1..], seen + {rows[0].name});
    }
  }

  lemma {:induction false} KeptFinds(rows: seq<Account>, seen: set<string>, name: string)
    requires name !in seen
    ensures Get(Kept(rows, seen), name) == Get(Filter(rows), name)
  {
    hide Proper;
    if rows != [] {
      var a := rows[0];
      if Proper(a) && a.name !in seen {
        assert Kept(rows, seen) == [a] + Kept(rows[1..], seen + {a.name});
        if a.name != name { KeptFinds(rows[1..], seen + {a.name}, name); }
      } else {
        KeptFinds(rows[1..], seen, name);
      }
    }
  }

  function Filter(rows: seq<Account>): seq<Account> {
    if rows == [] then []
    else if Proper(rows[0]) then [rows[0]] + Filter(rows[1..])
    else Filter(rows[1..])
  }

  /**
   Normalizing gives the normal form, leaves one that is normal alone, and every name but
   `default` keeps the first of its rows that is an account at all.
   */
  lemma NormalForm(rows: seq<Account>)
    ensures Normal(Normalized(rows))
    ensures Normal(rows) ==> Normalized(rows) == rows
    ensures Normalized(Normalized(rows)) == Normalized(rows)
    ensures forall name :: name != DEFAULT ==> Get(Normalized(rows), name) == Get(Filter(rows), name)
  {
    KeptIsNormal(rows, {DEFAULT});
    AlreadyNormal(Normalized(rows));
    if Normal(rows) { AlreadyNormal(rows); }
    forall name | name != DEFAULT ensures Get(Normalized(rows), name) == Get(Filter(rows), name) {
      KeptFinds(rows, {DEFAULT}, name);
      assert Normalized(rows)[1..] == Kept(rows, {DEFAULT});
    }
  }

  /** Which names are left: `default`, and those of the right shape on a row that has a directory. */
  lemma NamesLeft(rows: seq<Account>, name: string)
    ensures Normalized(rows)[0] == Account("default", None, None, 0)
    ensures Get(Normalized(rows), name).Some? <==>
      || name == "default"
      || (&& 1 <= |name| <= 32 && ('a' <= name[0] <= 'z' || '0' <= name[0] <= '9')
          && (forall i :: 0 <= i < |name| ==>
                'a' <= name[i] <= 'z' || '0' <= name[i] <= '9' || name[i] == '-' || name[i] == '_' || name[i] == '.')
          && exists i :: 0 <= i < |rows| && rows[i].name == name && rows[i].dir.Some?)
  {
    NormalForm(rows);
    FilterIs(rows, name);
    hide Get, Filter, Kept, Normal;
    if name == DEFAULT { assert Normalized(rows)[0].name == name; }
  }

  lemma {:induction false} FilterIs(rows: seq<Account>, name: string)
    ensures Get(Filter(rows), name).Some? <==>
      ValidName(name) && exists i :: 0 <= i < |rows| && rows[i].name == name && rows[i].dir.Some?
  {
    hide ValidName;
    if rows != [] {
      FilterIs(rows[1..], name);
      assert rows == [rows[0]] + rows[1..];
      if i :| 0 <= i < |rows| && rows[i].name == name && rows[i].dir.Some? {
        assert i == 0 || rows[1..][i - 1] == rows[i];
      }
      if Proper(rows[0]) { assert ([rows[0]] + Filter(rows[1..]))[1..] == Filter(rows[1..]); }
    }
  }

  lemma AlreadyNormal(rows: seq<Account>)
    requires Normal(rows)
    ensures Normalized(rows) == rows
  {
    hide Proper;
    assert rows == [rows[0]] + rows[1..];
    assert !Proper(DEFAULT_LOGIN) by { NoDirectory(); }
    KeptIsAll(rows[1..], {DEFAULT});
  }

  lemma NoDirectory()
    ensures !Proper(DEFAULT_LOGIN)
  {
  }

  // ----- the order seats are tried in -----

  predicate Names(accounts: seq<Account>, name: string) { exists i :: 0 <= i < |accounts| && accounts[i].name == name }

  /** The first row of each name not seen yet. */
  function Firsts(accounts: seq<Account>, seen: set<string>): seq<Account> {
    if accounts == [] then []
    else if accounts[0].name in seen then Firsts(accounts[1..], seen)
    else [accounts[0]] + Firsts(accounts[1..], seen + {accounts[0].name})
  }

  /** The preferred seat first when there is one, and the rest as they are, each name once. */
  function Ordered(accounts: seq<Account>, preferred: Option<string>): seq<Account> {
    var first := if preferred.Some? then Get(accounts, preferred.value) else None;
    if first.Some? then [first.value] + Firsts(accounts, {first.value.name}) else Firsts(accounts, {})
  }

  lemma {:induction false} FirstsAre(accounts: seq<Account>, seen: set<string>)
    ensures Unique(Firsts(accounts, seen))
    ensures forall name :: Get(Firsts(accounts, seen), name) == if name in seen then None else Get(accounts, name)
  {
    if accounts != [] {
      var a, rest := accounts[0], accounts[1..];
      if a.name in seen {
        FirstsAre(rest, seen);
      } else {
        FirstsAre(rest, seen + {a.name});
        var more := Firsts(rest, seen + {a.name});
        assert Get(more, a.name).None?;
        assert ([a] + more)[1..] == more;
      }
    }
  }

  lemma {:induction false} FirstsOfUnique(accounts: seq<Account>, seen: set<string>)
    requires Unique(accounts) && forall i :: 0 <= i < |accounts| ==> accounts[i].name !in seen
    ensures Firsts(accounts, seen) == accounts
  {
    if accounts != [] {
      assert accounts == [accounts[0]] + accounts[1..];
      FirstsOfUnique(accounts[1..], seen + {accounts[0].name});
    }
  }

  lemma {:induction false} FirstsButOne(accounts: seq<Account>, seen: set<string>, name: string)
    requires Unique(accounts) && name in seen
    requires forall i :: 0 <= i < |accounts| && accounts[i].name in seen ==> accounts[i].name == name
    ensures Firsts(accounts, seen) == Without(accounts, name)
  {
    if accounts != [] {
      var a := accounts[0];
      FirstsButOne(accounts[1..], if a.name in seen then seen else seen + {a.name}, name);
    }
  }

  /** Every name is tried once, with the row it stands for. */
  lemma EachNameOnce(accounts: seq<Account>, preferred: Option<string>)
    ensures Unique(Ordered(accounts, preferred))
    ensures forall name :: Get(Ordered(accounts, preferred), name) == Get(accounts, name)
  {
    var first := if preferred.Some? then Get(accounts, preferred.value) else None;
    if first.Some? {
      var rest := Firsts(accounts, {first.value.name});
      FirstsAre(accounts, {first.value.name});
      assert Get(rest, first.value.name).None?;
      assert ([first.value] + rest)[1..] == rest;
    } else {
      FirstsAre(accounts, {});
    }
  }

  function Without(accounts: seq<Account>, name: string): seq<Account> {
    if accounts == [] then []
    else if accounts[0].name == name then Without(accounts[1..], name)
    else [accounts[0]] + Without(accounts[1..], name)
  }

  lemma {:induction false} NothingWithout(accounts: seq<Account>, name: string)
    requires forall i :: 0 <= i < |accounts| ==> accounts[i].name != name
    ensures Without(accounts, name) == accounts
  {
    if accounts != [] {
      NothingWithout(accounts[1..], name);
      assert accounts == [accounts[0]] + accounts[1..];
    }
  }

  lemma {:induction false} TakingOneOut(accounts: seq<Account>, name: string)
    requires Unique(accounts) && Get(accounts, name).Some?
    ensures multiset([Get(accounts, name).value] + Without(accounts, name)) == multiset(accounts)
  {
    assert accounts == [accounts[0]] + accounts[1..];
    if accounts[0].name == name {
      NothingWithout(accounts[1..], name);
      assert Without(accounts, name) == accounts[1..];
    } else {
      TakingOneOut(accounts[1..], name);
      assert Without(accounts, name) == [accounts[0]] + Without(accounts[1..], name);
    }
  }

  /** With no name twice, every seat is tried once, and none is left out. */
  lemma OrderedIsAPermutation(accounts: seq<Account>, preferred: Option<string>)
    requires Unique(accounts)
    ensures multiset(Ordered(accounts, preferred)) == multiset(accounts)
    ensures preferred.Some? && Get(accounts, preferred.value).Some? ==>
              Ordered(accounts, preferred)[0] == Get(accounts, preferred.value).value
  {
    if preferred.Some? && Get(accounts, preferred.value).Some? {
      TakingOneOut(accounts, preferred.value);
      FirstsButOne(accounts, {preferred.value}, preferred.value);
    } else {
      FirstsOfUnique(accounts, {});
    }
  }

  // ----- the registry -----

  class Registry {
    var accounts: seq<Account>
    var exhausted: map<string, Exhausted>
    var signedOut: map<string, SignedOut>

    constructor (r: Records)
      ensures Value() == r
    {
      accounts, exhausted, signedOut := r.accounts, r.exhausted, r.signedOut;
    }

    function Value(): Records
      reads this
    {
      Records(accounts, exhausted, signedOut)
    }

    method Normalize()
      modifies `accounts
      ensures accounts == Normalized(old(accounts))
    {
      hide Proper;
      var rows := accounts;
      var seen := {DEFAULT};
      var out := [DEFAULT_LOGIN];
      var i := 0;
      while i < |rows|
        invariant 0 <= i <= |rows|
        invariant out + Kept(rows[i..], seen) == Normalized(rows)
      {
        var a := rows[i];
        assert rows[i..][1..] == rows[i + 1..];
        if Improper(a) {
          assert Kept(rows[i..], seen) == Kept(rows[i + 1..], seen);
        } else if a.name !in seen {
          assert Kept(rows[i..], seen) == [a] + Kept(rows[i + 1..], seen + {a.name});
          seen := seen + {a.name};
          out := out + [a];
        }
        i := i + 1;
      }
      accounts := out;
    }

    /** Forgets a seat, never the default one. */
    method Remove(name: string) returns (removed: bool)
      modifies this
      ensures name == DEFAULT ==> !removed && Value() == old(Value())
      ensures name != DEFAULT ==>
                && Value() == Records(Without(old(accounts), name), old(exhausted) - {name}, old(signedOut) - {name})
                && (removed <==> Get(old(accounts), name).Some?)
    {
      if name == DEFAULT { return false; }
      var n := |accounts|;
      WithoutLength(accounts, name);
      accounts := Without(accounts, name);
      exhausted := exhausted - {name};
      signedOut := signedOut - {name};
      removed := |accounts| != n;
    }

    method MarkExhausted(name: string, kind: string, until: int, scope: Option<string>,
                         credential: Option<string>, at: int)
      modifies `exhausted
      ensures exhausted == old(exhausted)[name := Exhausted(until, kind, at, scope, credential)]
    {
      exhausted := exhausted[name := Exhausted(until, kind, at, scope, credential)];
    }

    /** Drops the marks whose window has rolled over, and says whether there were any. */
    method Prune(now: int) returns (changed: bool)
      modifies `exhausted
      ensures exhausted == Pruned(old(exhausted), now)
      ensures forall k :: k in exhausted <==> k in old(exhausted) && old(exhausted)[k].until > now
      ensures forall k :: k in exhausted ==> exhausted[k] == old(exhausted)[k]
      ensures changed <==> exists k :: k in old(exhausted) && old(exhausted)[k].until <= now
    {
      var n := |exhausted|;
      var all := exhausted;
      exhausted := Pruned(all, now);
      changed := |exhausted| != n;
      PrunedSize(all, now);
    }

    /** The preferred seat, then every other in registry order. */
    method Order(preferred: Option<string>) returns (out: seq<Account>)
      ensures out == Ordered(accounts, preferred)
    {
      hide *;
      var p := if preferred.Some? then Get(accounts, preferred.value) else None;
      out := if p.Some? then [p.value] else [];
      ghost var seen := if p.Some? then {p.value.name} else {};
      var i := 0;
      NoneOrdered(accounts, preferred);
      while i < |accounts|
        invariant 0 <= i <= |accounts|
        invariant Ordering(accounts, preferred, i, out, seen)
      {
        OneOrdered(accounts, preferred, i, out, seen);
        if !Names(out, accounts[i].name) {
          seen := seen + {accounts[i].name};
          out := out + [accounts[i]];
        }
        i := i + 1;
      }
      AllOrdered(accounts, preferred, out, seen);
    }

    /** What a probe changed, put into this registry where nobody changed it meanwhile. */
    method MergeObservations(before: Records, after: Records)
      modifies `exhausted, `signedOut
      ensures Value() == MergedInto(old(Value()), before, after)
    {
      var same := Unchanged(accounts, before.accounts);
      exhausted := Merge(exhausted, before.exhausted, after.exhausted, same);
      signedOut := Merge(signedOut, before.signedOut, after.signedOut, same);
    }
  }

  /** What is still to come makes it the whole order. */
  ghost predicate Ordering(accounts: seq<Account>, preferred: Option<string>, i: nat, out: seq<Account>,
                           seen: set<string>)
  {
    && i <= |accounts| && out + Firsts(accounts[i..], seen) == Ordered(accounts, preferred)
    && forall name :: name in seen <==> Names(out, name)
  }

  lemma NoneOrdered(accounts: seq<Account>, preferred: Option<string>)
    ensures var p := if preferred.Some? then Get(accounts, preferred.value) else None;
      Ordering(accounts, preferred, 0, if p.Some? then [p.value] else [], if p.Some? then {p.value.name} else {})
  {
    hide Get, Firsts;
    assert accounts[0..] == accounts;
    var p := if preferred.Some? then Get(accounts, preferred.value) else None;
    assert forall name :: !Names([], name);
    if p.Some? {
      assert [] + [p.value] == [p.value];
      OneMoreName([], p.value);
    }
  }

  lemma OneOrdered(accounts: seq<Account>, preferred: Option<string>, i: nat, out: seq<Account>, seen: set<string>)
    requires i < |accounts| && Ordering(accounts, preferred, i, out, seen)
    ensures var a := accounts[i];
      if Names(out, a.name) then Ordering(accounts, preferred, i + 1, out, seen)
      else Ordering(accounts, preferred, i + 1, out + [a], seen + {a.name})
  {
    hide Names, Ordered;
    var a := accounts[i];
    assert accounts[i..][0] == a && accounts[i..][1..] == accounts[i + 1..];
    OneMoreName(out, a);
    assert out + ([a] + Firsts(accounts[i + 1..], seen + {a.name}))
        == out + [a] + Firsts(accounts[i + 1..], seen + {a.name});
  }

  lemma AllOrdered(accounts: seq<Account>, preferred: Option<string>, out: seq<Account>, seen: set<string>)
    requires Ordering(accounts, preferred, |accounts|, out, seen)
    ensures out == Ordered(accounts, preferred)
  {
    hide Ordered;
    assert accounts[|accounts|..] == [];
  }

  lemma OneMoreName(accounts: seq<Account>, a: Account)
    ensures forall name :: Names(accounts + [a], name) <==> Names(accounts, name) || name == a.name
  {
    var more := accounts + [a];
    assert more[|accounts|] == a;
    forall name | Names(accounts, name) ensures Names(more, name) {
      var i :| 0 <= i < |accounts| && accounts[i].name == name;
      assert more[i].name == name;
    }
  }

  predicate Improper(a: Account)
    ensures Improper(a) <==> !Proper(a)
  {
    a.dir.None? || !ValidName(a.name)
  }

  lemma {:induction false} WithoutLength(accounts: seq<Account>, name: string)
    ensures |Without(accounts, name)| <= |accounts|
    ensures |Without(accounts, name)| < |accounts| <==> Get(accounts, name).Some?
  {
    if accounts != [] { WithoutLength(accounts[1..], name); }
  }

  function Pruned(marks: map<string, Exhausted>, now: int): map<string, Exhausted> {
    map k | k in marks && marks[k].until > now :: marks[k]
  }

  lemma PrunedSize(marks: map<string, Exhausted>, now: int)
    ensures |Pruned(marks, now)| != |marks| <==> exists k :: k in marks && marks[k].until <= now
  {
    var rolled := set k | k in marks && marks[k].until <= now;
    assert marks.Keys == Pruned(marks, now).Keys + rolled;
    if rolled != {} {
      var k :| k in rolled;
      assert k in marks && marks[k].until <= now;
    }
  }

  // ----- merging what a probe found -----

  predicate SameIdentity(a: Option<Account>, b: Option<Account>) {
    && a.Some? && b.Some?
    && a.value.name == b.value.name && a.value.dir == b.value.dir && a.value.addedAt == b.value.addedAt
  }

  /** The names whose seat is the one it was. */
  function Unchanged(current: seq<Account>, before: seq<Account>): set<string> {
    set i | 0 <= i < |before| && SameIdentity(Get(current, before[i].name), Some(before[i])) :: before[i].name
  }

  /** What the merge leaves under a key: the probe's finding if it is one and nobody else changed it. */
  function MergedMark<T(==)>(current: Option<T>, before: Option<T>, after: Option<T>, same: bool): Option<T> {
    if same && before != after && current == before then after else current
  }

  function Merged<T(==)>(current: map<string, T>, before: map<string, T>, after: map<string, T>,
                         same: set<string>): (m: map<string, T>)
    ensures forall k :: Look(m, k) == MergedMark(Look(current, k), Look(before, k), Look(after, k), k in same)
  {
    var m := map k | k in current.Keys + after.Keys
                     && MergedMark(Look(current, k), Look(before, k), Look(after, k), k in same).Some?
                   :: MergedMark(Look(current, k), Look(before, k), Look(after, k), k in same).value;
    assert forall k :: k !in current.Keys + after.Keys ==> Look(m, k) == None;
    m
  }

  function MergedInto(current: Records, before: Records, after: Records): Records {
    var same := Unchanged(current.accounts, before.accounts);
    Records(current.accounts,
            Merged(current.exhausted, before.exhausted, after.exhausted, same),
            Merged(current.signedOut, before.signedOut, after.signedOut, same))
  }

  /** The keys are visited in no particular order: it comes out the same. */
  method Merge<T(==)>(current: map<string, T>, before: map<string, T>, after: map<string, T>, same: set<string>)
    returns (merged: map<string, T>)
    ensures merged == Merged(current, before, after, same)
  {
    hide *;
    merged := current;
    var keys := before.Keys + after.Keys;
    NotMergedYet(current, before, after, same);
    while keys != {}
      invariant MergedBut(current, before, after, same, keys, merged)
      decreases |keys|
    {
      var key :| key in keys;
      OneMoreMerged(current, before, after, same, keys, merged, key);
      if key in same && Look(before, key) != Look(after, key) && Look(merged, key) == Look(before, key) {
        if key in after {
          merged := merged[key := after[key]];
        } else {
          merged := merged - {key};
        }
      }
      keys := keys - {key};
    }
    AllMerged(current, before, after, same, merged);
  }

  /** The keys not in `keys` have been merged. */
  ghost predicate MergedBut<T>(current: map<string, T>, before: map<string, T>, after: map<string, T>,
                               same: set<string>,
                               keys: set<string>, merged: map<string, T>)
  {
    forall k :: Look(merged, k) ==
      if k in keys then Look(current, k)
      else MergedMark(Look(current, k), Look(before, k), Look(after, k), k in same)
  }

  lemma NotMergedYet<T>(current: map<string, T>, before: map<string, T>, after: map<string, T>, same: set<string>)
    ensures MergedBut(current, before, after, same, before.Keys + after.Keys, current)
  {
  }

  lemma OneMoreMerged<T>(current: map<string, T>, before: map<string, T>, after: map<string, T>, same: set<string>,
                         keys: set<string>, merged: map<string, T>, key: string)
    requires MergedBut(current, before, after, same, keys, merged) && key in keys
    ensures var next :=
        if !(key in same && Look(before, key) != Look(after, key) && Look(merged, key) == Look(before, key)) then merged
        else if key in after then merged[key := after[key]]
        else merged - {key};
      MergedBut(current, before, after, same, keys - {key}, next)
  {
  }

  lemma AllMerged<T>(current: map<string, T>, before: map<string, T>, after: map<string, T>, same: set<string>,
                     merged: map<string, T>)
    requires MergedBut(current, before, after, same, {}, merged)
    ensures merged == Merged(current, before, after, same)
  {
    SameMarks(merged, Merged(current, before, after, same));
  }

  lemma SameMarks<T>(m: map<string, T>, n: map<string, T>)
    requires forall k :: Look(m, k) == Look(n, k)
    ensures m == n
  {
    assert forall k :: k in m <==> Look(m, k).Some?;
    assert forall k :: k in n <==> Look(n, k).Some?;
    assert forall k :: k in m ==> Look(m, k) == Some(m[k]);
    assert forall k :: k in n ==> Look(n, k) == Some(n[k]);
  }
}
