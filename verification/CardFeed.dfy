/**
 The two ends of the qualifier: the registry it looks owners up in, and the narration that
 is committed piece by piece and requalified as tags land.
 */
module CardFeed {
  import opened Wrappers
  import opened CardTags
  import opened CardStream
  import opened CardOwners

  // ----- the registry -----

  /** Rust's `split_once('/')`. */
  function SplitOnce(id: string): (r: Option<(string, string)>)
    ensures r.Some? ==> id == r.value.0 + "/" + r.value.1 && '/' !in r.value.0
    ensures r.None? ==> '/' !in id
  {
    if id == "" then None
    else if id[0] == '/' then
      assert id == "" + "/" + id[1..];
      Some(("", id[1..]))
    else
      var r := SplitOnce(id[1..]);
      assert id == [id[0]] + id[1..];
      if r.None? then None
      else
        assert id == [id[0]] + r.value.0 + "/" + r.value.1;
        Some(([id[0]] + r.value.0, r.value.1))
  }

  /** The id as an owner and a slug, when it has both. */
  function Reference(id: string): Option<(string, string)> {
    var r := SplitOnce(id);
    if r.Some? && r.value.0 != "" && r.value.1 != "" then r else None
  }

  predicate Names(id: string, owner: string, slug: string) { Reference(id) == Some((owner, slug)) }

  /** Is `owner` whom a bare `slug` means, by the published ids? The official scope, or else the first. */
  ghost predicate Means(ids: seq<string>, slug: string, owner: string) {
    if exists i :: 0 <= i < |ids| && Names(ids[i], OFFICIAL, slug) then owner == OFFICIAL
    else exists i :: 0 <= i < |ids| && Names(ids[i], owner, slug)
           && forall j :: 0 <= j < i ==> !(Reference(ids[j]).Some? && Reference(ids[j]).value.1 == slug)
  }

  lemma SplitOnceIs(id: string, owner: string, slug: string)
    ensures SplitOnce(id) == Some((owner, slug)) <==> id == owner + "/" + slug && '/' !in owner
    decreases id
  {
    if id == owner + "/" + slug && '/' !in owner {
      assert id[|owner|] == '/';
      if owner != "" {
        assert id[0] == owner[0] && id[0] != '/' && id[1..] == owner[1..] + "/" + slug;
        SplitOnceIs(id[1..], owner[1..], slug);
        assert [id[0]] + owner[1..] == owner;
      } else {
        assert id[1..] == slug;
      }
    }
  }

  /** Which ids publish a slug for an owner: the two with a `/` between, neither empty. */
  lemma NamesIs(id: string, owner: string, slug: string)
    ensures Names(id, owner, slug) <==> owner != "" && slug != "" && '/' !in owner && id == owner + "/" + slug
  {
    hide SplitOnce;
    SplitOnceIs(id, owner, slug);
  }

  predicate Publishes(id: string, owner: string, slug: string) {
    owner != "" && slug != "" && '/' !in owner && id == owner + "/" + slug
  }

  /** Whom a bare slug means, in the ids as they are written: `mafold` if that publishes it, or else the first. */
  lemma MeansIs(ids: seq<string>, slug: string, owner: string)
    ensures Means(ids, slug, owner) <==>
      if exists i :: 0 <= i < |ids| && Publishes(ids[i], "mafold", slug) then owner == "mafold"
      else exists i :: 0 <= i < |ids| && Publishes(ids[i], owner, slug)
             && forall j, other :: 0 <= j < i ==> !Publishes(ids[j], other, slug)
  {
    hide Reference;
    forall id, o ensures Names(id, o, slug) <==> Publishes(id, o, slug) { NamesIs(id, o, slug); }
    forall id ensures (Reference(id).Some? && Reference(id).value.1 == slug) <==> exists o :: Publishes(id, o, slug) {
      if Reference(id).Some? && Reference(id).value.1 == slug { assert Names(id, Reference(id).value.0, slug); }
    }
    hide Publishes;
    assert forall i :: 0 <= i < |ids| ==> (Names(ids[i], OFFICIAL, slug) <==> Publishes(ids[i], "mafold", slug));
  }

  /** A slug is known exactly when some id publishes it, and means the official scope or the first. */
  method SetRegistry(ids: seq<string>) returns (reg: Registry)
    ensures forall slug :: slug in reg <==>
              exists i :: 0 <= i < |ids| && Reference(ids[i]).Some? && Reference(ids[i]).value.1 == slug
    ensures forall slug :: slug in reg ==>
              slug != "" && reg[slug] != "" && '/' !in reg[slug] && Means(ids, slug, reg[slug])
  {
    hide Means, SplitOnce;
    reg := map[];
    for n := 0 to |ids|
      invariant forall slug :: slug in reg <==>
                  exists i :: 0 <= i < n && Reference(ids[i]).Some? && Reference(ids[i]).value.1 == slug
      invariant forall slug :: slug in reg ==>
                  slug != "" && reg[slug] != "" && '/' !in reg[slug] && Means(ids[..n], slug, reg[slug])
    {
      var r := Reference(ids[n]);
      ghost var before := reg;
      if r.Some? {
        var owner, slug := r.value.0, r.value.1;
        if slug !in reg {
          reg := reg[slug := owner];
        }
        if owner == OFFICIAL {
          reg := reg[slug := owner];
        }
      }
      forall slug | slug in reg ensures Means(ids[..n + 1], slug, reg[slug]) {
        MeansOnward(ids, n, slug, if slug in before then Some(before[slug]) else None, reg[slug]);
      }
    }
    assert ids[..|ids|] == ids;
  }

  lemma MeansOnward(ids: seq<string>, n: nat, slug: string, before: Option<string>, after: string)
    requires n < |ids|
    requires before.Some? ==> Means(ids[..n], slug, before.value)
    requires before.None? ==> forall i :: 0 <= i < n ==> !(Reference(ids[i]).Some? && Reference(ids[i]).value.1 == slug)
    requires var r := Reference(ids[n]);
      after == if r.Some? && r.value.1 == slug && (before.None? || r.value.0 == OFFICIAL) then r.value.0
               else if before.Some? then before.value else after
    requires before.None? ==> Reference(ids[n]).Some? && Reference(ids[n]).value.1 == slug
    ensures Means(ids[..n + 1], slug, after)
  {
    hide Reference;
    var all := ids[..n + 1];
    assert all[n] == ids[n] && forall i :: 0 <= i < n ==> all[i] == ids[..n][i];
    if Names(all[n], OFFICIAL, slug) {
    } else if i :| 0 <= i < n && Names(ids[..n][i], OFFICIAL, slug) {
      assert Names(all[i], OFFICIAL, slug);
    } else if before.Some? {
      var i :| 0 <= i < n && Names(ids[..n][i], after, slug)
        && forall j :: 0 <= j < i ==> !(Reference(ids[..n][j]).Some? && Reference(ids[..n][j]).value.1 == slug);
      assert Names(all[i], after, slug);
    } else {
      assert Names(all[n], after, slug);
    }
  }

  // ----- cuts and qualifying -----

  lemma CleanOnward(a: Text, b: Text, more: Text)
    requires Clean(a, b)
    ensures Clean(a, b + more)
  {
    hide FindOpen, FindClose;
    forall o | OpensAt(a, o) ensures Decided(a[o + 2..], b + more) {
      assert Decided(a[o + 2..], b);
      assert StartsOpen(b) ==> (b + more)[0] == b[0] && (b + more)[1] == b[1];
      assert StartsOpen(b) && !OpensAt(b, 0) ==> (b + more)[2] == b[2];
    }
    assert b != [] ==> (b + more)[0] == b[0];
  }

  /** What goes out is never just the start of the tag that is held back. */
  lemma OutHoldsTheOpen(buf: Text)
    requires StartsOpen(buf) && Boundary(buf) > 0
    ensures StartsOpen(buf[..Boundary(buf)])
  {
    hide LastOpen, FindClose;
    var e := Boundary(buf);
    NoneAfterTheLast(buf, if OpensAt(buf, 0) then 0 else 1);
    var i := LastOpen(buf).value;
    assert OpensAt(buf, i);
    assert e >= 2 && (!OpensAt(buf, 0) ==> e >= 3);
  }

  lemma CleanBefore(a: Text, buf: Text)
    requires Clean(a, buf) && Boundary(buf) > 0
    ensures Clean(a, buf[..Boundary(buf)])
  {
    hide Boundary, HasDelim;
    var x := buf[..Boundary(buf)];
    if StartsOpen(buf) {
      OutHoldsTheOpen(buf);
    }
    forall o | OpensAt(a, o) ensures Decided(a[o + 2..], x) {
      assert Decided(a[o + 2..], buf);
    }
  }

  lemma DelimKept(r: Text, b: Text)
    requires HasDelim(r) || StartsOpen(b)
    ensures HasDelim(r + b)
  {
    OpenInJoin(r, b);
    CloseInJoin(r, b);
    hide FindOpen, FindClose;
    if StartsOpen(b) {
      var k := if OpensAt(b, 0) then 0 else 1;
      assert OpensAt(r + b, |r| + k);
      OpenFound(r + b, |r| + k);
    }
  }

  /** Committing up to the boundary leaves a clean cut before what is held back. */
  lemma CleanAfter(a: Text, buf: Text)
    requires Clean(a, buf) && Boundary(buf) > 0
    ensures Clean(a + buf[..Boundary(buf)], buf[Boundary(buf)..])
  {
    hide Boundary, HasDelim, StartsOpen;
    var e := Boundary(buf);
    var x, rest := buf[..e], buf[e..];
    CleanBefore(a, buf);
    BoundaryIsClean(buf, []);
    assert rest + [] == rest;
    var c := a + x;
    forall o: nat | OpensAt(c, o) ensures Decided(c[o + 2..], rest) {
      if o >= |a| {
        assert c[|a|..] == x && OpensAt(x, o - |a|) && c[o + 2..] == x[o - |a| + 2..];
      } else {
        assert c[|a|] == x[0] && c[|a| - 1] == a[|a| - 1] && NoStraddle(a, x);
        assert OpensAt(a, o);
        var r := a[o + 2..];
        assert c[o + 2..] == r + x;
        assert Decided(r, x);
        if r != [] && r[0].ch == '}' {
          assert (r + x)[0] == r[0];
        } else {
          DelimKept(r, x);
        }
      }
    }
    assert c[|c| - 1] == x[|x| - 1];
  }

  /** Qualifying keeps the last character where it is. */
  lemma {:induction false} LastKept(t: Text, reg: Registry)
    requires t != []
    ensures var q := Qualified(t, reg); q != [] && q[|q| - 1] == t[|t| - 1]
    decreases |t|
  {
    hide FindOpen, Fires, Next, Spliced, Qualified, NameAt, NameEnd, Slug;
    var o := FindOpen(t);
    if o == |t| {
      NothingOpens(t, reg);
    } else {
      Unfolds(t, reg);
      Effect(t, o, reg);
      var n := Next(t, reg, o);
      if n < |t| {
        LastKept(t[n..], reg);
      } else {
        if Fires(t, reg, o) { SlugFollows(t, o, reg); }
        NothingLeft(reg);
        assert t[n..] == [];
        assert t[..n] + ([] + []) == t;
      }
    }
  }

  lemma NothingLeft(reg: Registry)
    ensures Qualified([], reg) == []
  {
  }

  lemma SlugFollows(t: Text, o: nat, reg: Registry)
    requires OpensAt(t, o) && Fires(t, reg, o)
    ensures Next(t, reg, o) < |t|
  {
  }

  lemma DecidedKept(r: Text, b: Text, reg: Registry)
    requires Decided(r, b)
    ensures Decided(Qualified(r, reg), b)
  {
    hide Qualified, FindOpen, FindClose;
    var f := FindOpen(r);
    var q := Qualified(r, reg);
    if f == |r| {
      NothingOpens(r, reg);
    } else {
      HeadKept(r, reg);
      assert OpensAt(q, f) by { assert q[f] == r[..f + 2][f] && q[f + 1] == r[..f + 2][f + 1]; }
      OpenFound(q, f);
    }
  }

  lemma ClosingTailHasDelim(w: Text, x: Text)
    requires ClosingTail(x)
    ensures HasDelim(w + x)
  {
    hide FindOpen, FindClose, Namespaced;
    var c := FindClose(x);
    assert ClosesAt(x, c) && ClosesAt(w + x, |w| + c);
    CloseFound(w + x, |w| + c);
  }

  /** Around a fired tag every `{%` of the result has its closing mark ahead. */
  lemma DelimBehindRewritten(t: Text, o: nat, q: nat, reg: Registry)
    requires OpensAt(t, o) && Fires(t, reg, o)
    requires var n := Next(t, reg, o); q + 2 <= n + |Spliced(t, reg, o)|
    ensures var n := Next(t, reg, o);
      HasDelim((t[..n] + Spliced(t, reg, o) + Qualified(t[n..], reg))[q + 2..])
  {
    hide Fires, FiresIn, NameAt, NameEnd, Qualified, Own, ClosingTail, Scannable, Next, Spliced, HasDelim;
    RewrittenParts(t, o, reg);
    var rest := t[o + 2..];
    var sl, x := rest[NameAt(rest)..NameEnd(rest)], Qualified(rest[NameEnd(rest)..], reg);
    var head := t[..Next(t, reg, o)] + Spliced(t, reg, o);
    var out := head + (sl + x);
    var w := head[q + 2..] + sl;
    assert out[q + 2..] == w + x;
    ClosingTailHasDelim(w, x);
  }

  lemma CleanOpens(t: Text, b: Text, n: nat)
    requires n <= |t| && forall o :: OpensAt(t, o) ==> Decided(t[o + 2..], b)
    ensures forall o :: OpensAt(t[n..], o) ==> Decided(t[n..][o + 2..], b)
  {
    hide Decided;
    forall o | OpensAt(t[n..], o) ensures Decided(t[n..][o + 2..], b) {
      assert OpensAt(t, n + o) && t[n..][o + 2..] == t[n + o + 2..];
    }
  }

  /** A text whose tags are all decided stays so when it is qualified. */
  lemma {:induction false} OpensStayDecided(t: Text, b: Text, reg: Registry)
    requires forall o :: OpensAt(t, o) ==> Decided(t[o + 2..], b)
    ensures forall q :: OpensAt(Qualified(t, reg), q) ==> Decided(Qualified(t, reg)[q + 2..], b)
    decreases |t|
  {
    hide FindOpen, Fires, FiresIn, Next, Spliced, NameAt, NameEnd, Slug, HasDelim, StartsOpen, Decided;
    var o := FindOpen(t);
    if o == |t| {
      NothingOpens(t, reg);
    } else {
      Effect(t, o, reg);
      var n, own := Next(t, reg, o), Spliced(t, reg, o);
      var r, out := Qualified(t[n..], reg), Qualified(t, reg);
      CleanOpens(t, b, n);
      OpensStayDecided(t[n..], b, reg);
      assert out == t[..n] + own + r;
      var m := n + |own|;
      forall q: nat | OpensAt(out, q) ensures Decided(out[q + 2..], b) {
        if q >= m {
          assert out[m..] == r && OpensAt(r, q - m) && out[q + 2..] == r[q - m + 2..];
        } else if Fires(t, reg, o) {
          OwnEndsInSlash(t, o, reg);
          assert out[m - 1] == own[|own| - 1];
          DelimBehindRewritten(t, o, q, reg);
          assert Decided(out[q + 2..], b) by { DelimDecides(out[q + 2..], b); }
        } else {
          assert own == [] && n == o + 2;
          assert out[q] == t[q] && t[o + 1].ch == '%' && out[q + 1] == t[q + 1];
          OpenFound(t, q);
          assert out[o + 2..] == r;
          DecidedKept(t[o + 2..], b, reg);
        }
      }
    }
  }

  lemma DelimDecides(r: Text, b: Text)
    requires HasDelim(r)
    ensures Decided(r, b)
  {
  }

  lemma OwnEndsInSlash(t: Text, o: nat, reg: Registry)
    requires OpensAt(t, o) && Fires(t, reg, o)
    ensures var own := Spliced(t, reg, o); own != [] && own[|own| - 1].ch == '/'
  {
  }

  /** What has been qualified already can be qualified again with what is added. */
  lemma RequalifiedWithMore(gone: Text, x: Text, reg: Registry)
    requires Stable(reg) && Clean(gone, x)
    ensures Qualified(Qualified(gone, reg) + x, reg) == Qualified(gone + x, reg)
  {
    hide Qualified, Decided, Stable;
    var full := Qualified(gone, reg);
    OpensStayDecided(gone, x, reg);
    if gone == [] {
      NothingLeft(reg);
    } else {
      LastKept(gone, reg);
    }
    assert Clean(full, x);
    QualifiedApart(full, x, reg);
    QualifiedApart(gone, x, reg);
    StableIsIdempotent(gone, reg);
  }

  /** And that is so for all texts and clean cuts exactly in a stable registry. */
  lemma RequalifiesIffStable(reg: Registry)
    ensures (forall gone, x :: Clean(gone, x) ==> Qualified(Qualified(gone, reg) + x, reg) == Qualified(gone + x, reg))
        <==> Stable(reg)
  {
    hide Qualified, Clean, Stable, Bare, Canonical, Scannable, OwnStays;
    if Stable(reg) {
      forall gone, x | Clean(gone, x) ensures Qualified(Qualified(gone, reg) + x, reg) == Qualified(gone + x, reg) {
        RequalifiedWithMore(gone, x, reg);
      }
    } else {
      var slug := FallsShort(reg);
      BareIsClean(slug);
      assert Qualified(Bare(slug), reg) + [] == Qualified(Bare(slug), reg) && Bare(slug) + [] == Bare(slug);
      assert Clean(Bare(slug), []);
    }
  }

  /** A registry that is not stable has a slug whose bare tag is not done after one run. */
  lemma FallsShort(reg: Registry) returns (slug: string)
    requires !Stable(reg)
    ensures slug in reg && Scannable(slug)
    ensures Qualified(Bare(slug), reg) == Canonical(slug, reg)
    ensures Qualified(Canonical(slug, reg), reg) != Canonical(slug, reg)
  {
    hide Qualified, Bare, Canonical, Scannable, OwnStays;
    slug :| slug in reg && Scannable(slug) && !OwnStays(reg[slug], slug, reg);
    BareBecomesCanonical(slug, reg);
    if Qualified(Canonical(slug, reg), reg) == Canonical(slug, reg) { FixedStays(slug, reg); }
  }

  /** A bare tag is all there: it goes out whole. */
  lemma BareIsClean(slug: string)
    requires Scannable(slug)
    ensures var t := Bare(slug); FindOpen(t) == 0 < |t| == Boundary(t) && Clean(t, [])
  {
    var t := Bare(slug);
    var n := |t|;
    assert t[n - 2].ch == '%' && t[n - 1].ch == '}' && OpensAt(t, 0);
    assert forall i :: 2 <= i < n - 2 ==> t[i].ch == slug[i - 2];
    hide Bare, FindClose, LastOpen, FindOpen, Clean, Scannable;
    OpenFound(t, 0);
    ClosedGoesOut(t);
    hide Boundary;
    BoundaryIsClean(t, []);
    assert t[..n] == t && t[n..] + [] == [];
  }

  lemma ClosedGoesOut(t: Text)
    requires OpensAt(t, 0) && |t| > 2 && ClosesAt(t, |t| - 2) && forall i :: 2 <= i < |t| ==> t[i].ch != '{'
    ensures Boundary(t) == |t|
  {
    hide FindClose, LastOpen;
    var n, last := |t|, LastOpen(t);
    NoneAfterTheLast(t, 0);
    assert ClosesAt(t[last.value..], n - 2 - last.value);
    CloseFound(t[last.value..], n - 2 - last.value);
  }

  // ----- the narration -----

  /** What has been committed, and what is held back because a tag may still be cut in half. */
  datatype Feed = Feed(full: Text, buf: Text)

  function Heard(f: Feed, chunk: Text): Feed { f.(buf := f.buf + chunk) }

  /** Commits up to the boundary, and requalifies when a tag has landed. */
  function Flushed(f: Feed, reg: Registry): Feed {
    var n := Boundary(f.buf);
    var full := f.full + f.buf[..n];
    Feed(if FindOpen(f.buf[..n]) < n then Qualified(full, reg) else full, f.buf[n..])
  }

  function Ended(f: Feed, reg: Registry): Text { Qualified(f.full + f.buf, reg) }

  /** What is committed is what was said up to there, qualified once, and the cut is clean. */
  ghost predicate Holds(f: Feed, gone: Text, reg: Registry) {
    f.full == Qualified(gone, reg) && Clean(gone, f.buf)
  }

  lemma NothingHeard(reg: Registry)
    ensures Holds(Feed([], []), [], reg)
  {
    NothingLeft(reg);
  }

  lemma FlushHolds(f: Feed, gone: Text, reg: Registry)
    requires Stable(reg) && Holds(f, gone, reg)
    ensures Holds(Flushed(f, reg), gone + f.buf[..Boundary(f.buf)], reg)
  {
    hide Qualified, Stable, Clean, Boundary;
    var n := Boundary(f.buf);
    var out := f.buf[..n];
    if n == 0 {
      assert gone + out == gone && f.buf[n..] == f.buf && f.full + out == f.full;
      hide Holds;
      assert Flushed(f, reg) == f by { NothingOut(f, reg); }
    } else {
      CleanBefore(gone, f.buf);
      CleanAfter(gone, f.buf);
      if FindOpen(out) < n {
        RequalifiedWithMore(gone, out, reg);
      } else {
        QualifiedApart(gone, out, reg);
        NothingOpens(out, reg);
      }
    }
  }

  lemma NothingOut(f: Feed, reg: Registry)
    requires Boundary(f.buf) == 0
    ensures Flushed(f, reg) == f
  {
    hide Boundary;
    assert f.buf[..0] == [] && f.full + [] == f.full && f.buf[0..] == f.buf;
  }

  lemma FinishHolds(f: Feed, gone: Text, reg: Registry)
    requires Stable(reg) && Holds(f, gone, reg)
    ensures Ended(f, reg) == Qualified(gone + f.buf, reg)
  {
    hide Qualified, Stable, Clean;
    RequalifiedWithMore(gone, f.buf, reg);
  }

  class Narration {
    const reg: Registry
    var full: Text
    var buf: Text

    function Value(): Feed
      reads this
    {
      Feed(full, buf)
    }

    constructor (reg: Registry)
      ensures Value() == Feed([], []) && this.reg == reg
    {
      this.reg := reg;
      full, buf := [], [];
    }

    method Say(chunk: Text)
      modifies `buf
      ensures Value() == Heard(old(Value()), chunk)
    {
      buf := buf + chunk;
    }

    /**
     Commits as much as the boundary allows: in a stable registry, just that much of what was said,
     qualified once.
     */
    method FlushText()
      modifies this
      ensures Value() == Flushed(old(Value()), reg)
      ensures buf == old(buf)[Boundary(old(buf))..]
      ensures Stable(reg) ==>
        forall gone :: Holds(old(Value()), gone, reg) ==> Holds(Value(), gone + old(buf)[..|old(buf)| - |buf|], reg)
    {
      hide Qualified, Stable, Holds, Boundary, Clean, HeldAt;
      ghost var was := Value();
      if Stable(reg) {
        forall gone | Holds(was, gone, reg) ensures Holds(Flushed(was, reg), gone + buf[..Boundary(buf)], reg) {
          FlushHolds(was, gone, reg);
        }
      }
      if buf == [] {
        NothingOut(was, reg);
        return;
      }
      var n := CommitBoundary(buf);
      if n == 0 {
        NothingOut(was, reg);
        return;
      }
      var tagged := FindOpen(buf[..n]) < n;
      full := full + buf[..n];
      buf := buf[n..];
      if tagged {
        full := Qualify(full, reg);
      }
    }

    /** Commits everything: in a stable registry, the whole of what was said, qualified once. */
    method FlushTextAll()
      modifies this
      ensures full == Ended(old(Value()), reg) && buf == []
      ensures Stable(reg) ==> forall gone :: Holds(old(Value()), gone, reg) ==> full == Qualified(gone + old(buf), reg)
    {
      hide Qualified, Stable, Holds;
      ghost var was := Value();
      if Stable(reg) {
        forall gone | Holds(was, gone, reg) ensures Ended(was, reg) == Qualified(gone + buf, reg) {
          FinishHolds(was, gone, reg);
        }
      }
      if buf != [] {
        full := full + buf;
        buf := [];
      } else {
        assert full + buf == full;
      }
      full := Qualify(full, reg);
    }
  }

  // ----- a whole turn -----

  function Fed(chunks: seq<Text>, reg: Registry): Feed {
    if chunks == [] then Feed([], [])
    else Flushed(Heard(Fed(chunks[..|chunks| - 1], reg), chunks[|chunks| - 1]), reg)
  }

  /** What stands when a turn is over that came in these chunks. */
  function Streamed(chunks: seq<Text>, reg: Registry): Text { Ended(Fed(chunks, reg), reg) }

  method Stream(reg: Registry, chunks: seq<Text>) returns (full: Text)
    ensures full == Streamed(chunks, reg)
  {
    hide Flushed, Ended, Stable, Holds;
    var n := new Narration(reg);
    for i := 0 to |chunks|
      invariant n.Value() == Fed(chunks[..i], reg) && n.reg == reg && fresh(n)
    {
      n.Say(chunks[i]);
      n.FlushText();
      assert chunks[..i + 1][..i] == chunks[..i];
    }
    assert chunks[..|chunks|] == chunks;
    n.FlushTextAll();
    full := n.full;
  }

  lemma {:induction false} FedHolds(chunks: seq<Text>, reg: Registry) returns (gone: Text)
    requires Stable(reg)
    ensures Holds(Fed(chunks, reg), gone, reg) && gone + Fed(chunks, reg).buf == Concat(chunks)
    decreases |chunks|
  {
    hide Qualified, Clean, Stable, Boundary, Flushed, Holds, Concat;
    if chunks == [] {
      NothingHeard(reg);
      assert Concat(chunks) == [] by { NothingSaid(); }
      gone := [];
    } else {
      var n := |chunks| - 1;
      var before := Fed(chunks[..n], reg);
      var was := FedHolds(chunks[..n], reg);
      var f := Heard(before, chunks[n]);
      HeardHolds(before, was, chunks[n], reg);
      FlushHolds(f, was, reg);
      FlushLeaves(f, reg);
      ConcatNext(chunks, n);
      assert chunks[..n + 1] == chunks;
      var out := f.buf[..Boundary(f.buf)];
      Rejoined(was, before.buf, chunks[n], out, Flushed(f, reg).buf, Concat(chunks[..n]));
      gone := was + out;
    }
  }

  lemma NothingSaid()
    ensures Concat([]) == []
  {
  }

  lemma HeardHolds(f: Feed, gone: Text, chunk: Text, reg: Registry)
    requires Holds(f, gone, reg)
    ensures Holds(Heard(f, chunk), gone, reg)
  {
    hide Qualified, Clean;
    CleanOnward(gone, f.buf, chunk);
  }

  lemma FlushLeaves(f: Feed, reg: Registry)
    ensures f.buf == f.buf[..Boundary(f.buf)] + Flushed(f, reg).buf
  {
    hide Boundary, Qualified, FindOpen;
  }

  lemma Rejoined(gone: Text, buf: Text, chunk: Text, out: Text, rest: Text, said: Text)
    requires gone + buf == said && buf + chunk == out + rest
    ensures gone + out + rest == said + chunk
  {
    assert gone + out + rest == gone + (buf + chunk);
  }

  /** Streamed equals batch, however a turn's text is cut into chunks, if and only if the registry is stable. */
  lemma StreamsIffStable(reg: Registry)
    ensures (forall chunks :: Streamed(chunks, reg) == Qualified(Concat(chunks), reg)) <==> Stable(reg)
  {
    hide Qualified, Stable, Bare, Canonical, Scannable, OwnStays, Holds, Boundary, Fed, Ended;
    if Stable(reg) {
      forall chunks ensures Streamed(chunks, reg) == Qualified(Concat(chunks), reg) {
        var gone := FedHolds(chunks, reg);
        FinishHolds(Fed(chunks, reg), gone, reg);
      }
    } else {
      var slug := FallsShort(reg);
      BareIsClean(slug);
      OneChunk(Bare(slug), reg);
      assert Streamed([Bare(slug)], reg) != Qualified(Concat([Bare(slug)]), reg);
    }
  }

  /** A whole tag in one chunk is qualified as it lands, and again at the end. */
  lemma OneChunk(t: Text, reg: Registry)
    requires FindOpen(t) < |t| == Boundary(t)
    ensures Streamed([t], reg) == Qualified(Qualified(t, reg), reg) && Concat([t]) == t
  {
    hide Qualified, Boundary, FindOpen;
    assert [t][..0] == [] && [t][1..] == [] && [] + t == t && t[..|t|] == t && t[|t|..] == [];
    var once := Qualified(t, reg);
    assert Heard(Feed([], []), t) == Feed([], t);
    assert Flushed(Feed([], t), reg) == Feed(once, []);
    assert Fed([t], reg) == Feed(once, []) by { assert Fed([t][..0], reg) == Feed([], []); }
    assert once + [] == once;
    assert Concat([t]) == t + Concat([]);
  }

  function Concat(chunks: seq<Text>): Text {
    if chunks == [] then [] else chunks[0] + Concat(chunks[1..])
  }

  lemma {:induction false} ConcatNext(chunks: seq<Text>, i: nat)
    requires i < |chunks|
    ensures Concat(chunks[..i + 1]) == Concat(chunks[..i]) + chunks[i]
    decreases i
  {
    if i == 0 {
      assert chunks[..1] == [chunks[0]] && chunks[..0] == [];
      assert Concat([chunks[0]]) == chunks[0] + Concat([]);
    } else {
      ConcatNext(chunks[1..], i - 1);
      assert chunks[..i + 1][1..] == chunks[1..][..i] && chunks[..i][1..] == chunks[1..][..i - 1];
      var before := Concat(chunks[1..][..i - 1]);
      assert chunks[0] + (before + chunks[i]) == chunks[0] + before + chunks[i];
    }
  }
}
