/**
 What splicing owners does to a text: it only inserts, and a second run changes nothing
 exactly for registries whose own references are left alone.
 */
module CardOwners {
  import opened CardTags
  import opened CardStream

  // ----- only inserts -----

  datatype Piece = Kept(text: Text) | Added(text: Text)

  function Joined(ps: seq<Piece>): Text {
    if ps == [] then [] else ps[0].text + Joined(ps[1..])
  }

  function KeptOf(ps: seq<Piece>): Text {
    if ps == [] then [] else (if ps[0].Kept? then ps[0].text else []) + KeptOf(ps[1..])
  }

  /** `p` ends inside a tag that has no name yet. */
  ghost predicate EndsInTag(p: Text) {
    exists k: nat :: OpensAt(p, k) && forall j :: k + 2 <= j < |p| ==> IsSpace(p[j].ch) || p[j].ch == '/'
  }

  /** An inserted run: the owner of the slug that is the tag's whole name, right where that begins. */
  ghost predicate RightlyAdded(before: Text, added: Text, next: Text, reg: Registry) {
    && EndsInTag(before)
    && var slug := Chars(next[..NameRun(next)]);
       NameRun(next) > 0 && slug in reg && added == Own(reg[slug])
  }

  ghost predicate AllRightlyAdded(ps: seq<Piece>, reg: Registry) {
    forall i :: 0 <= i < |ps| && ps[i].Added? ==>
      && 0 < i < |ps| - 1 && ps[i - 1].Kept? && ps[i + 1].Kept?
      && RightlyAdded(ps[i - 1].text, ps[i].text, ps[i + 1].text, reg)
  }

  lemma HeadEndsInTag(t: Text, o: nat)
    requires OpensAt(t, o)
    ensures o + 2 + NameAt(t[o + 2..]) <= |t| && EndsInTag(t[..o + 2 + NameAt(t[o + 2..])])
  {
    var rest := t[o + 2..];
    var start := o + 2 + NameAt(rest);
    var a := SpaceRun(rest);
    SpaceChars(rest);
    if a < |rest| && rest[a].ch == '/' {
      SpaceChars(rest[a + 1..]);
      assert forall j :: a + 1 <= j < NameAt(rest) ==> rest[j] == rest[a + 1..][j - (a + 1)];
    }
    hide NameAt, SpaceRun;
    var p := t[..start];
    assert OpensAt(p, o);
    assert forall j :: o + 2 <= j < |p| ==> p[j] == rest[j - (o + 2)];
  }

  lemma FiredSlug(t: Text, o: nat, reg: Registry)
    requires OpensAt(t, o) && Fires(t, reg, o)
    ensures var start := o + 2 + NameAt(t[o + 2..]);
      && 0 < NameRun(t[start..]) <= |t| - start
      && Chars(t[start..][..NameRun(t[start..])]) == Slug(t[o + 2..])
  {
    hide FindOpen, FindClose, Namespaced, NameAt;
    var rest := t[o + 2..];
    var start := o + 2 + NameAt(rest);
    assert rest[NameAt(rest)..] == t[start..];
    assert rest[NameAt(rest)..NameEnd(rest)] == t[start..][..NameRun(t[start..])];
    assert rest[NameAt(rest)] == t[start];
  }

  lemma RightHere(t: Text, o: nat, next: Text, reg: Registry)
    requires OpensAt(t, o) && Fires(t, reg, o)
    requires var start := Next(t, reg, o); NameRun(t[start..]) <= |next| && next <= t[start..]
    ensures RightlyAdded(t[..Next(t, reg, o)], Spliced(t, reg, o), next, reg)
  {
    hide Fires, NameAt, NameRun, Slug, EndsInTag, Own;
    Effect(t, o, reg);
    HeadEndsInTag(t, o);
    FiredSlug(t, o, reg);
    var u := t[Next(t, reg, o)..];
    var k := NameRun(u);
    assert next[..k] == u[..k];
    SameName(u, next);
  }

  /** A name does not go on in what starts with all of it and is the start of the rest. */
  lemma {:induction false} SameName(t: Text, u: Text)
    requires u <= t && NameRun(t) <= |u|
    ensures NameRun(u) == NameRun(t)
  {
    if u != [] && IsName(u[0].ch) { SameName(t[1..], u[1..]); }
  }

  lemma Unfolds(t: Text, reg: Registry)
    requires FindOpen(t) < |t|
    ensures var o := FindOpen(t); var n := Next(t, reg, o);
      Qualified(t, reg) == t[..n] + (Spliced(t, reg, o) + Qualified(t[n..], reg))
  {
    hide FindOpen, Next, Spliced;
    var o := FindOpen(t);
    var n := Next(t, reg, o);
    assert t[..n] + Spliced(t, reg, o) + Qualified(t[n..], reg)
        == t[..n] + (Spliced(t, reg, o) + Qualified(t[n..], reg));
  }

  /** The result is the input with owners put in, and nothing else: taking them out gives it back. */
  lemma {:induction false} OnlyInserts(t: Text, reg: Registry) returns (ps: seq<Piece>)
    ensures Joined(ps) == Qualified(t, reg) && KeptOf(ps) == t
    ensures AllRightlyAdded(ps, reg)
    ensures ps != [] && ps[0].Kept? && NameRun(t) <= |ps[0].text| && ps[0].text <= t
    decreases |t|
  {
    hide Fires, Next, Spliced, FindOpen, Qualified, Joined, KeptOf, NameRun, RightlyAdded, AllRightlyAdded;
    var o := FindOpen(t);
    NoOpenInName(t);
    if o == |t| {
      NothingOpens(t, reg);
      ps := [Kept(t)];
      OnePiece(t, reg);
    } else {
      Unfolds(t, reg);
      Effect(t, o, reg);
      var n := Next(t, reg, o);
      var more := OnlyInserts(t[n..], reg);
      var own := Spliced(t, reg, o);
      if Fires(t, reg, o) { RightHere(t, o, more[0].text, reg); }
      ps := PutBefore(t[..n], own, Fires(t, reg, o), more, reg);
      assert t == t[..n] + t[n..];
    }
  }

  lemma PutBefore(head: Text, own: Text, added: bool, more: seq<Piece>, reg: Registry) returns (ps: seq<Piece>)
    requires AllRightlyAdded(more, reg) && more != [] && more[0].Kept?
    requires if added then RightlyAdded(head, own, more[0].text, reg) else own == []
    ensures ps != [] && ps[0] == Kept(head)
    ensures Joined(ps) == head + (own + Joined(more)) && KeptOf(ps) == head + KeptOf(more)
    ensures AllRightlyAdded(ps, reg)
  {
    hide Joined, KeptOf, RightlyAdded, AllRightlyAdded;
    var tail := more;
    if added {
      tail := [Added(own)] + more;
      Prepended(Added(own), more);
    }
    ps := [Kept(head)] + tail;
    Prepended(Kept(head), tail);
    Shifted(ps, more, reg);
  }

  lemma OnePiece(t: Text, reg: Registry)
    ensures Joined([Kept(t)]) == t && KeptOf([Kept(t)]) == t && AllRightlyAdded([Kept(t)], reg)
  {
    assert [Kept(t)][1..] == [];
  }

  lemma Prepended(p: Piece, ps: seq<Piece>)
    ensures Joined([p] + ps) == p.text + Joined(ps)
    ensures KeptOf([p] + ps) == (if p.Kept? then p.text else []) + KeptOf(ps)
  {
    assert ([p] + ps)[1..] == ps;
  }

  lemma Shifted(ps: seq<Piece>, more: seq<Piece>, reg: Registry)
    requires AllRightlyAdded(more, reg) && more != [] && more[0].Kept?
    requires
      || (|ps| == |more| + 1 && ps[0].Kept? && ps[1..] == more)
      || (|ps| == |more| + 2 && ps[0].Kept? && ps[1].Added? && ps[2..] == more
          && RightlyAdded(ps[0].text, ps[1].text, more[0].text, reg))
    ensures AllRightlyAdded(ps, reg)
  {
    hide RightlyAdded;
    var d := |ps| - |more|;
    forall i | 0 <= i < |ps| && ps[i].Added?
      ensures 0 < i < |ps| - 1 && ps[i - 1].Kept? && ps[i + 1].Kept?
        && RightlyAdded(ps[i - 1].text, ps[i].text, ps[i + 1].text, reg)
    {
      if i >= d {
        assert ps[i] == more[i - d];
        assert ps[i - 1] == more[i - d - 1] && ps[i + 1] == more[i - d + 1];
      }
    }
  }

  // ----- a second run -----

  /** No `{%` of the text is a tag to rewrite. */
  ghost predicate Quiet(t: Text, reg: Registry) {
    forall o :: OpensAt(t, o) ==> !Fires(t, reg, o)
  }

  lemma {:induction false} QuietIsFixed(t: Text, reg: Registry)
    requires Quiet(t, reg)
    ensures Qualified(t, reg) == t
    decreases |t|
  {
    hide FindOpen, Fires, Next, Spliced;
    var o := FindOpen(t);
    if o == |t| {
      NothingOpens(t, reg);
    } else {
      Effect(t, o, reg);
      assert !Fires(t, reg, o);
      QuietFrom(t, o + 2, reg);
      QuietIsFixed(t[o + 2..], reg);
      assert t == t[..o + 2] + [] + t[o + 2..];
    }
  }

  lemma QuietFrom(t: Text, n: nat, reg: Registry)
    requires Quiet(t, reg) && n <= |t|
    ensures Quiet(t[n..], reg)
  {
    hide Fires;
    forall o | OpensAt(t[n..], o) ensures !Fires(t[n..], reg, o) {
      assert OpensAt(t, n + o);
      SameTag(t, n, n + o, reg);
    }
  }

  /** A run never shortens a text, and one that leaves it alone found nothing to rewrite. */
  lemma {:induction false} FixedIsQuiet(t: Text, reg: Registry)
    ensures |Qualified(t, reg)| >= |t|
    ensures |Qualified(t, reg)| == |t| ==> Quiet(t, reg)
    decreases |t|
  {
    hide FindOpen, Fires, Next, Spliced, NameAt, NameEnd, Slug;
    var o := FindOpen(t);
    if o == |t| {
      forall k | OpensAt(t, k) ensures false { OpenFound(t, k); }
    } else {
      Effect(t, o, reg);
      var n := Next(t, reg, o);
      FixedIsQuiet(t[n..], reg);
      if |Qualified(t, reg)| == |t| {
        forall k | OpensAt(t, k) ensures !Fires(t, reg, k) {
          OpenFound(t, k);
          if k > o {
            assert k >= n;
            SameTag(t, n, k, reg);
          }
        }
      }
    }
  }

  predicate Scannable(slug: string) {
    slug != "" && IsLower(slug[0]) && forall i :: 0 <= i < |slug| ==> IsName(slug[i])
  }

  /** The reference to `slug` a first run leaves behind, in its plainest tag. */
  function Canonical(slug: string, reg: Registry): Text
    requires slug in reg
  {
    Plain("{%") + Own(reg[slug]) + Plain(slug) + Plain("%}")
  }

  /** What may follow a slug in a tag that was rewritten. */
  predicate ClosingTail(x: Text) {
    !Namespaced(x) && ClosesFirst(x) && !IsName(x[0].ch)
  }

  /** Whether a `{%` followed by `w` and then the slug fires does not depend on what comes after. */
  predicate FiresAhead(w: Text, slug: string, reg: Registry)
    requires w != []
  {
    var s, n := NameAt(w), NameEnd(w);
    if s == |w| then slug in reg
    else
      && IsLower(w[s].ch)
      && !(n < |w| && w[n].ch == '/' && (n + 1 < |w| ==> IsLetter(w[n + 1].ch)))
      && (HasDelim(w[n..]) ==> ClosesFirst(w[n..]))
      && Chars(w[s..n]) in reg
  }

  /** Behind a `{%`, and behind any `{%` of its own, the scan finds no known name in this owner. */
  predicate OwnStays(owner: string, slug: string, reg: Registry) {
    var own := Own(owner);
    && !FiresAhead(own, slug, reg)
    && forall q: nat | q + 2 < |own| :: OpensAt(own, q) ==> !FiresAhead(own[q + 2..], slug, reg)
  }

  /** A finite check on the texts of the owners and the slugs, without running anything. */
  predicate Stable(reg: Registry) {
    forall slug :: slug in reg && Scannable(slug) ==> OwnStays(reg[slug], slug, reg)
  }

  lemma ScanBeforeSlug(w: Text, more: Text)
    requires w != [] && w[|w| - 1].ch == '/' && more != [] && IsLower(more[0].ch)
    ensures NameAt(w + more) == NameAt(w)
    ensures NameAt(w) < |w| ==> NameEnd(w + more) == NameEnd(w) < |w|
  {
    BlanksBeforeSlug(w, more);
    hide NameAt, NameRun, SpaceRun, IsSpace;
    var s := NameAt(w);
    if s < |w| {
      NameChars(w[s..]);
      assert w[s..][|w| - s - 1].ch == '/';
      NameInJoin(w[s..], more);
      assert (w + more)[s..] == w[s..] + more;
    }
  }

  lemma BlanksBeforeSlug(w: Text, more: Text)
    requires w != [] && w[|w| - 1].ch == '/' && more != [] && IsLower(more[0].ch)
    ensures NameAt(w + more) == NameAt(w)
  {
    hide SpaceRun;
    var a := SpaceRun(w);
    SpaceChars(w);
    SpaceInJoin(w, more);
    if w[a].ch == '/' {
      SpaceInJoin(w[a + 1..], more);
      assert (w + more)[a + 1..] == w[a + 1..] + more;
    }
  }

  lemma {:induction false} AllName(t: Text, x: Text)
    requires forall i :: 0 <= i < |t| ==> IsName(t[i].ch)
    requires x == [] || !IsName(x[0].ch)
    ensures NameRun(t + x) == |t|
    decreases t
  {
    if t == [] {
      assert t + x == x;
    } else {
      assert (t + x)[1..] == t[1..] + x;
      AllName(t[1..], x);
    }
  }

  lemma {:induction false} AllSpace(t: Text, x: Text)
    requires forall i :: 0 <= i < |t| ==> IsSpace(t[i].ch)
    ensures SpaceRun(t + x) == |t| + SpaceRun(x)
    decreases t
  {
    if t == [] {
      assert t + x == x;
    } else {
      assert (t + x)[1..] == t[1..] + x;
      AllSpace(t[1..], x);
    }
  }

  /** Before a slug and its closing tail, text without a delimiter changes nothing. */
  lemma ClosesPastSlug(z: Text, sl: Text, x: Text)
    requires z != [] && z[|z| - 1].ch == '/' && ClosesFirst(x)
    requires forall i :: 0 <= i < |sl| ==> IsName(sl[i].ch)
    ensures ClosesFirst(z + sl + x) <==> (HasDelim(z) ==> ClosesFirst(z))
  {
    hide FindOpen, FindClose;
    assert z + sl + x == z + (sl + x);
    if HasDelim(z) {
      ClosesInJoin(z, sl + x);
    } else {
      var y := z + sl;
      assert y[|z| - 1] == z[|z| - 1];
      assert forall i :: 0 <= i < |sl| ==> y[|z| + i] == sl[i];
      NoDelimIn(z, sl);
      var c, o := FindClose(x), FindOpen(x);
      assert ClosesAt(y + x, |y| + c);
      CloseFound(y + x, |y| + c);
      OpenInJoin(y, x);
      CloseInJoin(y, x);
      var f, g := FindOpen(y + x), FindClose(y + x);
      assert g < |y + x| ==> ClosesAt(y + x, g);
      if g < |y| { assert (y + x)[g] == y[g]; }
      if |y| <= g < |y + x| {
        assert ClosesAt(x, g - |y|);
        CloseFound(x, g - |y|);
      }
    }
  }

  lemma NoDelimIn(z: Text, sl: Text)
    requires z != [] && z[|z| - 1].ch == '/' && !HasDelim(z)
    requires forall i :: 0 <= i < |sl| ==> IsName(sl[i].ch)
    ensures !HasDelim(z + sl)
  {
    hide FindOpen, FindClose;
    var y := z + sl;
    var f, g := FindOpen(y), FindClose(y);
    assert forall i :: |z| <= i < |y| ==> y[i] == sl[i - |z|] && IsName(y[i].ch);
    assert y[|z| - 1] == z[|z| - 1];
    if f < |y| {
      assert OpensAt(y, f) && OpensAt(z, f);
      OpenFound(z, f);
    }
    if g < |y| {
      assert ClosesAt(y, g) && ClosesAt(z, g);
      CloseFound(z, g);
    }
  }

  lemma FiresIsAhead(w: Text, sl: Text, x: Text, reg: Registry)
    requires w != [] && w[|w| - 1].ch == '/' && Scannable(Chars(sl)) && ClosingTail(x)
    ensures FiresIn(w + sl + x, reg) == FiresAhead(w, Chars(sl), reg)
  {
    var v := w + sl + x;
    assert v == w + (sl + x);
    assert forall i :: 0 <= i < |sl| ==> IsName(sl[i].ch) && sl[i].ch == Chars(sl)[i];
    ScanBeforeSlug(w, sl + x);
    var s := NameAt(w);
    if s == |w| {
      assert v[s..] == sl + x;
      AllName(sl, x);
      var n := s + |sl|;
      assert NameEnd(v) == n && v[n..] == x && v[s..n] == sl && v[s] == sl[0];
    } else {
      FiresWithin(w, sl, x, reg);
    }
  }

  lemma FiresWithin(w: Text, sl: Text, x: Text, reg: Registry)
    requires w != [] && w[|w| - 1].ch == '/' && Scannable(Chars(sl)) && ClosingTail(x)
    requires NameAt(w) < |w|
    ensures FiresIn(w + sl + x, reg) == FiresAhead(w, Chars(sl), reg)
  {
    var v := w + sl + x;
    assert v == w + (sl + x);
    assert forall i :: 0 <= i < |sl| ==> IsName(sl[i].ch) && sl[i].ch == Chars(sl)[i];
    ScanBeforeSlug(w, sl + x);
    hide NameAt, NameEnd, ClosesFirst, HasDelim;
    var s, n := NameAt(w), NameEnd(w);
    ClosesPastSlug(w[n..], sl, x);
    hide ClosingTail, IsName, IsLower, IsLetter;
    WithinFirst(w, sl, x, s, n);
  }

  lemma WithinFirst(w: Text, sl: Text, x: Text, s: nat, n: nat)
    requires s <= n < |w| && sl != []
    ensures var v := w + sl + x;
      && v[n..] == w[n..] + sl + x && v[s..n] == w[s..n] && v[s] == w[s]
      && v[n] == w[n] && v[n + 1] == if n + 1 < |w| then w[n + 1] else sl[0]
  {
  }

  lemma NoBrace(t: Text)
    requires forall i :: 0 <= i < |t| ==> t[i].ch != '{'
    ensures FindOpen(t) == |t|
  {
    hide FindOpen;
    assert FindOpen(t) < |t| ==> OpensAt(t, FindOpen(t));
  }

  /** A bare tag's tail stays one when the text after it is qualified. */
  lemma TailKept(after: Text, reg: Registry)
    requires ClosingTail(after)
    ensures ClosingTail(Qualified(after, reg))
  {
    hide Qualified, FindClose, FindOpen;
    var c, k := FindClose(after), FindOpen(after);
    CopiesUpTo(after, k, reg);
    var x := Qualified(after, reg);
    var p := after[..k];
    var head := if k < |after| then k + 2 else k;
    if k < |after| {
      assert OpensAt(after, k);
      HeadKept(after, reg);
    } else {
      NothingOpens(after, reg);
    }
    var q := after[..head];
    assert q <= x && after == q + after[head..] && x == q + x[head..];
    assert ClosesAt(after, c) && ClosesAt(q, c);
    CloseFound(q, c);
    ClosesInJoin(q, after[head..]);
    ClosesInJoin(q, x[head..]);
    assert x[0] == after[0] && x[1] == after[1];
  }

  /** Everything up to and with the first `{%` is copied. */
  lemma HeadKept(t: Text, reg: Registry)
    requires FindOpen(t) < |t|
    ensures FindOpen(t) + 2 <= |t| && t[..FindOpen(t) + 2] <= Qualified(t, reg)
  {
    Unfolds(t, reg);
    hide Qualified, FindOpen, Next, Spliced;
    var o := FindOpen(t);
    assert t[..Next(t, reg, o)][..o + 2] == t[..o + 2];
  }

  /** Whether a `{%` fires is settled by what comes before the next one. */
  lemma FiresUnchanged(r: Text, reg: Registry)
    ensures FiresIn(Qualified(r, reg), reg) == FiresIn(r, reg)
  {
    hide Qualified, FiresIn, FindOpen;
    var f := FindOpen(r);
    if f == |r| {
      NothingOpens(r, reg);
    } else {
      HeadKept(r, reg);
      var p, q := r[..f + 2], Qualified(r, reg);
      assert OpensAt(p, f);
      OpenFound(p, f);
      FiresInJoin(p, r[f + 2..], reg);
      FiresInJoin(p, q[f + 2..], reg);
      assert r == p + r[f + 2..] && q == p + q[f + 2..];
    }
  }

  lemma ScanBehindBlanks(s0: Text, own: Text)
    requires own != [] && own[|own| - 1].ch == '/' && forall i :: 0 <= i < |s0| ==> IsSpace(s0[i].ch)
    ensures NameAt(s0 + own) == |s0| + NameAt(own)
  {
    var w, k := s0 + own, SpaceRun(own);
    SpaceChars(own);
    AllSpace(s0, own);
    assert w[|s0| + k] == own[k];
    assert w[|s0| + k + 1..] == own[k + 1..];
  }

  lemma SlashScan(w: Text, a: nat)
    requires a == SpaceRun(w) < |w| && w[a].ch == '/'
    ensures NameAt(w) == a + 1 + SpaceRun(w[a + 1..])
  {
    hide SpaceRun;
  }

  lemma ScanBehindSlash(blanks: Text, more: Text, own: Text)
    requires own != [] && own[|own| - 1].ch == '/'
    requires forall i :: 0 <= i < |blanks| ==> IsSpace(blanks[i].ch)
    requires more != [] && more[0].ch == '/' && forall i :: 1 <= i < |more| ==> IsSpace(more[i].ch)
    ensures var w := blanks + (more + own); var k := SpaceRun(own);
      NameAt(w) == |blanks| + |more| + k && k < |own| && w[NameAt(w)] == own[k]
  {
    hide *;
    var w, k := blanks + (more + own), SpaceRun(own);
    SlashStops(own, |own| - 1);
    UpToSlash(blanks, more + own);
    AllSpace(more[1..], own);
    BehindSlash(blanks, more, own, k);
    SlashScan(w, |blanks|);
  }

  lemma UpToSlash(blanks: Text, back: Text)
    requires back != [] && back[0].ch == '/' && forall i :: 0 <= i < |blanks| ==> IsSpace(blanks[i].ch)
    ensures SpaceRun(blanks + back) == |blanks|
  {
    hide *;
    SlashStops(back, 0);
    AllSpace(blanks, back);
  }

  lemma BehindSlash(blanks: Text, more: Text, own: Text, k: nat)
    requires more != [] && k < |own|
    ensures var w := blanks + (more + own);
      && w[|blanks|] == more[0] == (more + own)[0]
      && w[|blanks| + 1..] == more[1..] + own
      && w[|blanks| + |more| + k] == own[k]
  {
  }

  lemma {:induction false} SlashStops(t: Text, k: nat)
    requires k < |t| && t[k].ch == '/'
    ensures SpaceRun(t) <= k
    decreases k
  {
    if k > 0 {
      SlashStops(t[1..], k - 1);
    }
  }

  /** Blanks and a slash before the owner leave the scan where it was, or at a slash. */
  lemma ScanBehind(rest: Text, own: Text)
    requires own != [] && own[|own| - 1].ch == '/'
    ensures var s0 := rest[..NameAt(rest)]; var w := s0 + own;
      NameAt(w) == |s0| + NameAt(own) || (NameAt(w) < |w| && w[NameAt(w)].ch == '/')
  {
    hide *;
    var n, a := NameAt(rest), SpaceRun(rest);
    BeforeName(rest);
    if a < |rest| && rest[a].ch == '/' {
      var blanks, more := rest[..a], rest[a..n];
      assert rest[..n] + own == blanks + (more + own);
      ScanBehindSlash(blanks, more, own);
      SlashStops(own, |own| - 1);
      if own[SpaceRun(own)].ch != '/' { NoSlash(own); }
    } else {
      ScanBehindBlanks(rest[..n], own);
    }
  }

  lemma NoSlash(t: Text)
    requires SpaceRun(t) < |t| && t[SpaceRun(t)].ch != '/'
    ensures NameAt(t) == SpaceRun(t)
  {
    hide SpaceRun;
  }

  /** What the scan passes before the name: blanks, and a slash and blanks when there is one. */
  lemma BeforeName(rest: Text)
    ensures var n, a := NameAt(rest), SpaceRun(rest);
      && (forall i :: 0 <= i < a ==> IsSpace(rest[i].ch))
      && (if a < |rest| && rest[a].ch == '/' then a < n && forall i :: a < i < n ==> IsSpace(rest[i].ch) else n == a)
  {
    var n, a := NameAt(rest), SpaceRun(rest);
    SpaceChars(rest);
    if a < |rest| && rest[a].ch == '/' {
      SpaceChars(rest[a + 1..]);
      hide SpaceRun, IsSpace;
      assert forall i :: a < i < n ==> rest[i] == rest[a + 1..][i - a - 1];
    }
  }

  /** Blanks and a slash before the owner do not make a quiet reference fire. */
  lemma FiresLessBehind(rest: Text, own: Text, slug: string, reg: Registry)
    requires own != [] && own[|own| - 1].ch == '/'
    requires FiresAhead(rest[..NameAt(rest)] + own, slug, reg)
    ensures FiresAhead(own, slug, reg)
  {
    hide NameAt, FiresAhead;
    ScanBehind(rest, own);
    SameAhead(rest[..NameAt(rest)], own, slug, reg);
  }

  lemma SameAhead(s0: Text, own: Text, slug: string, reg: Registry)
    requires own != [] && FiresAhead(s0 + own, slug, reg)
    requires
      || NameAt(s0 + own) == |s0| + NameAt(own)
      || (NameAt(s0 + own) < |s0 + own| && (s0 + own)[NameAt(s0 + own)].ch == '/')
    ensures FiresAhead(own, slug, reg)
  {
    hide NameAt, HasDelim, ClosesFirst;
    var w := s0 + own;
    var s := NameAt(own);
    assert NameAt(w) == |s0| + s;
    assert w[|s0| + s..] == own[s..];
    var n := NameEnd(own);
    assert NameEnd(w) == |s0| + n && w[|s0| + n..] == own[n..] && w[|s0| + s..|s0| + n] == own[s..n];
  }

  lemma CanonicalParts(slug: string, reg: Registry)
    requires slug in reg
    ensures var k := Canonical(slug, reg); var own := Own(reg[slug]); var more := Plain(slug) + Plain("%}");
      && |own| > 0 && own[|own| - 1].ch == '/'
      && OpensAt(k, 0) && !k[0].code && k[2..] == own + more && Chars(Plain(slug)) == slug
  {
    assert Canonical(slug, reg)[2..] == Own(reg[slug]) + (Plain(slug) + Plain("%}"));
  }

  lemma QuietAt(k: Text, o: nat, w: Text, slug: string, reg: Registry)
    requires Quiet(k, reg) && OpensAt(k, o) && !k[o].code
    requires k[o + 2..] == w + (Plain(slug) + Plain("%}"))
    requires w != [] && w[|w| - 1].ch == '/' && Scannable(slug)
    ensures !FiresAhead(w, slug, reg)
  {
    hide FiresIn, FiresAhead, ClosingTail;
    var plain, x := Plain(slug), Plain("%}");
    assert Chars(plain) == slug;
    assert w + (plain + x) == w + plain + x;
    PlainCloseIsTail();
    FiresIsAhead(w, plain, x, reg);
  }

  /** In a stable registry no reference a first run leaves behind fires, nor anything in its owner. */
  lemma OwnIsQuiet(slug: string, reg: Registry)
    requires Stable(reg) && Scannable(slug) && slug in reg
    ensures var own := Own(reg[slug]); own != [] && own[|own| - 1].ch == '/' && !FiresAhead(own, slug, reg)
    ensures var own := Own(reg[slug]);
      forall q: nat :: OpensAt(own, q) ==> q + 2 < |own| && !FiresAhead(own[q + 2..], slug, reg)
  {
    hide FiresAhead;
  }

  /** An owner whose canonical reference a run leaves alone passes the check. */
  lemma FixedStays(slug: string, reg: Registry)
    requires slug in reg && Scannable(slug) && Qualified(Canonical(slug, reg), reg) == Canonical(slug, reg)
    ensures OwnStays(reg[slug], slug, reg)
  {
    hide FiresAhead, Canonical, Quiet, Scannable, Qualified, Own, Plain;
    var k, own, more := Canonical(slug, reg), Own(reg[slug]), Plain(slug) + Plain("%}");
    FixedIsQuiet(k, reg);
    CanonicalParts(slug, reg);
    QuietAt(k, 0, own, slug, reg);
    forall q: nat | q + 2 < |own| && OpensAt(own, q) ensures !FiresAhead(own[q + 2..], slug, reg) {
      OwnIsPlain(reg[slug], q);
      OwnEnds(own, q);
      assert k[2..][q] == own[q] && k[2..][q + 1] == own[q + 1];
      assert k[2 + q + 2..] == k[2..][q + 2..] && k[2..][q + 2..] == own[q + 2..] + more;
      QuietAt(k, 2 + q, own[q + 2..], slug, reg);
    }
  }

  lemma OwnEnds(own: Text, q: nat)
    requires q + 2 < |own|
    ensures own[q + 2..] != [] && own[q + 2..][|own| - q - 3] == own[|own| - 1]
  {
  }

  lemma OwnIsPlain(owner: string, q: nat)
    requires q < |Own(owner)|
    ensures !Own(owner)[q].code
  {
  }

  lemma FiresMeans(t: Text, o: nat, reg: Registry)
    requires OpensAt(t, o)
    ensures Fires(t, reg, o) <==> !t[o].code && FiresIn(t[o + 2..], reg)
  {
  }

  lemma PlainCloseIsTail()
    ensures ClosingTail(Plain("%}"))
  {
    var x := Plain("%}");
    assert ClosesAt(x, 0) && !OpensAt(x, 0);
    CloseFound(x, 0);
    assert FindOpen(x) > 0;
  }

  /** The result from a fired tag on: scan, owner, slug, and a tail that still closes. */
  lemma RewrittenParts(t: Text, o: nat, reg: Registry)
    requires OpensAt(t, o) && Fires(t, reg, o)
    ensures var rest := t[o + 2..];
      var sl, x := rest[NameAt(rest)..NameEnd(rest)], Qualified(rest[NameEnd(rest)..], reg);
      && Next(t, reg, o) == o + 2 + NameAt(rest) && Spliced(t, reg, o) == Own(reg[Chars(sl)])
      && Qualified(t[Next(t, reg, o)..], reg) == sl + x
      && Scannable(Chars(sl)) && sl != [] && Chars(sl) in reg && ClosingTail(x)
  {
    FiredTag(t, o, reg);
    hide Fires, NameAt, NameEnd, Qualified, Own, FindOpen, ClosingTail, Scannable;
    PastTheName(t, o, reg);
    var rest := t[o + 2..];
    var s, n := o + 2 + NameAt(rest), o + 2 + NameEnd(rest);
    assert rest[NameEnd(rest)..] == t[n..] && rest[NameAt(rest)..NameEnd(rest)] == t[s..n];
    TailKept(t[n..], reg);
  }

  lemma HeadIsQuiet(rest: Text, own: Text, sl: Text, x: Text, reg: Registry)
    requires own != [] && own[|own| - 1].ch == '/' && Scannable(Chars(sl)) && ClosingTail(x)
    requires !FiresAhead(own, Chars(sl), reg)
    ensures !FiresIn(rest[..NameAt(rest)] + own + sl + x, reg)
  {
    hide FiresIn, FiresAhead, NameAt, Scannable, ClosingTail;
    var w := rest[..NameAt(rest)] + own;
    assert w[|w| - 1] == own[|own| - 1];
    FiresIsAhead(w, sl, x, reg);
    if FiresAhead(w, Chars(sl), reg) {
      FiresLessBehind(rest, own, Chars(sl), reg);
    }
  }

  /** Up to the name, the only `{%` is the tag's own. */
  lemma OnlyItsOwn(t: Text, o: nat, q: nat)
    requires o == FindOpen(t) && OpensAt(t, o) && OpensAt(t, q)
    requires q < o + 2 + NameAt(t[o + 2..])
    ensures q == o
  {
    hide FindOpen, NameAt, NameEnd;
    OpenFound(t, q);
    var rest := t[o + 2..];
    ScanChars(rest);
    assert forall j :: o + 2 <= j < o + 2 + NameAt(rest) ==> t[j] == rest[j - (o + 2)];
  }

  lemma HeadEndsPlain(t: Text, o: nat)
    requires OpensAt(t, o)
    ensures o + 2 + NameAt(t[o + 2..]) <= |t| && t[o + 2 + NameAt(t[o + 2..]) - 1].ch != '{'
  {
    hide NameAt, NameEnd;
    var rest := t[o + 2..];
    ScanChars(rest);
    assert NameAt(rest) > 0 ==> t[o + 2 + NameAt(rest) - 1] == rest[NameAt(rest) - 1];
  }

  /** A fired tag in the result: quiet at its own `{%` and all through the owner spliced in. */
  lemma RewrittenIsQuiet(t: Text, o: nat, q: nat, reg: Registry)
    requires Stable(reg) && OpensAt(t, o) && o == FindOpen(t) && Fires(t, reg, o)
    requires var n := Next(t, reg, o);
      q < n + |Spliced(t, reg, o)| && OpensAt(t[..n] + Spliced(t, reg, o) + Qualified(t[n..], reg), q)
    ensures var n := Next(t, reg, o);
      !Fires(t[..n] + Spliced(t, reg, o) + Qualified(t[n..], reg), reg, q)
  {
    hide Fires, FiresIn, NameAt, NameEnd, Qualified, Own, FiresAhead, FindOpen;
    hide ClosingTail, Scannable, Stable, Next, Spliced;
    RewrittenParts(t, o, reg);
    var rest := t[o + 2..];
    var sl, x := rest[NameAt(rest)..NameEnd(rest)], Qualified(rest[NameEnd(rest)..], reg);
    var n, own := Next(t, reg, o), Spliced(t, reg, o);
    OwnIsQuiet(Chars(sl), reg);
    HeadEndsPlain(t, o);
    var out := t[..n] + own + (sl + x);
    assert out[n + |own| - 1] == own[|own| - 1];
    FiresMeans(out, q, reg);
    if q < n {
      assert out[q] == t[q] && (q + 1 < n ==> out[q + 1] == t[q + 1]);
      assert OpensAt(t, q);
      OnlyItsOwn(t, o, q);
      assert out[o + 2..] == rest[..NameAt(rest)] + own + sl + x;
      HeadIsQuiet(rest, own, sl, x, reg);
    } else {
      var k := q - n;
      assert out[q] == own[k] && (k + 1 < |own| ==> out[q + 1] == own[k + 1]);
      assert OpensAt(own, k);
      var w := own[k + 2..];
      assert out[q + 2..] == w + sl + x;
      FiresIsAhead(w, sl, x, reg);
    }
  }

  /** What firing says about a tag's parts. */
  lemma FiredTag(t: Text, o: nat, reg: Registry)
    requires OpensAt(t, o) && Fires(t, reg, o)
    ensures var rest := t[o + 2..];
      var sl, after := rest[NameAt(rest)..NameEnd(rest)], rest[NameEnd(rest)..];
      && sl != [] && Scannable(Chars(sl)) && Chars(sl) in reg && ClosingTail(after)
      && Next(t, reg, o) == o + 2 + NameAt(rest) && Spliced(t, reg, o) == Own(reg[Chars(sl)])
      && NameEnd(rest) == NameAt(rest) + |sl|
  {
    hide NameAt, FindOpen, FindClose, Namespaced, Own;
    var rest := t[o + 2..];
    var s, n := NameAt(rest), NameEnd(rest);
    var sl, after := rest[s..n], rest[n..];
    NameChars(rest[s..]);
    assert forall i :: 0 <= i < n - s ==> rest[s..][i] == sl[i];
    assert after != [] && rest[s..][n - s] == after[0];
  }

  /** A tag passed over as it was is one the second run passes over too. */
  lemma PassedIsQuiet(t: Text, o: nat, q: nat, reg: Registry)
    requires o == FindOpen(t) < |t| && !Fires(t, reg, o)
    requires OpensAt(Qualified(t, reg), q) && q < Next(t, reg, o) + |Spliced(t, reg, o)|
    ensures !Fires(Qualified(t, reg), reg, q)
  {
    hide FindOpen, Fires, FiresIn, Next, Spliced, NameAt, NameEnd, Slug;
    var out := Qualified(t, reg);
    Effect(t, o, reg);
    var n := Next(t, reg, o);
    var r := Qualified(t[n..], reg);
    assert Spliced(t, reg, o) == [] && n == o + 2;
    assert out == t[..n] + r;
    hide Qualified;
    assert out[q] == t[q] && t[o + 1].ch == '%';
    assert out[q + 1] == t[q + 1];
    OpenFound(t, q);
    FiresUnchanged(t[o + 2..], reg);
    assert out[o + 2..] == r;
    FiresMeans(t, o, reg);
    FiresMeans(out, o, reg);
  }

  /** In a stable registry a run leaves nothing for a second one to do. */
  lemma {:induction false} ResultIsQuiet(t: Text, reg: Registry)
    requires Stable(reg)
    ensures Quiet(Qualified(t, reg), reg)
    decreases |t|
  {
    hide FindOpen, Fires, FiresIn, Next, Spliced, Stable, NameAt, NameEnd, Slug;
    var o := FindOpen(t);
    var out := Qualified(t, reg);
    if o == |t| {
      NothingOpens(t, reg);
      forall q: nat | OpensAt(t, q) ensures false { OpenFound(t, q); }
    } else {
      Effect(t, o, reg);
      var n, own := Next(t, reg, o), Spliced(t, reg, o);
      var r := Qualified(t[n..], reg);
      ResultIsQuiet(t[n..], reg);
      assert out == t[..n] + own + r;
      var m := n + |own|;
      forall q: nat | OpensAt(out, q) ensures !Fires(out, reg, q) {
        if q >= m {
          assert out[m..] == r;
          assert OpensAt(r, q - m);
          SameTag(out, m, q, reg);
        } else if Fires(t, reg, o) {
          RewrittenIsQuiet(t, o, q, reg);
        } else {
          PassedIsQuiet(t, o, q, reg);
        }
      }
    }
  }

  lemma StableIsIdempotent(t: Text, reg: Registry)
    requires Stable(reg)
    ensures Qualified(Qualified(t, reg), reg) == Qualified(t, reg)
  {
    ResultIsQuiet(t, reg);
    QuietIsFixed(Qualified(t, reg), reg);
  }

  /** A second run changes nothing, whatever the text. */
  ghost predicate Idempotent(reg: Registry) {
    forall t :: Qualified(Qualified(t, reg), reg) == Qualified(t, reg)
  }

  /** The plainest tag that asks for the slug. */
  function Bare(slug: string): Text { Plain("{%") + Plain(slug) + Plain("%}") }

  lemma IdempotentIsStable(reg: Registry)
    requires Idempotent(reg)
    ensures Stable(reg)
  {
    hide Qualified, Canonical, Scannable, OwnStays, Bare;
    forall slug | slug in reg && Scannable(slug) ensures OwnStays(reg[slug], slug, reg) {
      BareBecomesCanonical(slug, reg);
      assert Qualified(Qualified(Bare(slug), reg), reg) == Qualified(Bare(slug), reg);
      FixedStays(slug, reg);
    }
  }

  /** And in one that passes it, a run does leave them alone. */
  lemma StableFixes(slug: string, reg: Registry)
    requires Stable(reg) && slug in reg && Scannable(slug)
    ensures Qualified(Canonical(slug, reg), reg) == Canonical(slug, reg)
  {
    hide Qualified, Canonical, Scannable, Stable, Bare;
    BareBecomesCanonical(slug, reg);
    StableIsIdempotent(Bare(slug), reg);
  }

  /** A second run never changes anything exactly when the registry is stable. */
  lemma IdempotentIffStable(reg: Registry)
    ensures Idempotent(reg) <==> Stable(reg)
  {
    if Stable(reg) {
      hide Qualified, Stable;
      forall t ensures Qualified(Qualified(t, reg), reg) == Qualified(t, reg) {
        StableIsIdempotent(t, reg);
      }
    }
    if Idempotent(reg) {
      hide *;
      IdempotentIsStable(reg);
    }
  }

  lemma NoBlank(t: Text)
    requires t != [] && !IsSpace(t[0].ch)
    ensures SpaceRun(t) == 0
  {
  }

  /** The plainest bare tag of a known slug becomes its canonical reference. */
  lemma BareBecomesCanonical(slug: string, reg: Registry)
    requires slug in reg && Scannable(slug)
    ensures Qualified(Bare(slug), reg) == Canonical(slug, reg)
  {
    hide Fires, FiresIn, FindOpen, NameAt, NameEnd, Next, Slug, ClosingTail;
    var t, rest := Bare(slug), Plain(slug) + Plain("%}");
    BareFires(slug, reg);
    NoOpenInName(rest);
    NoBrace(rest);
    NothingOpens(rest, reg);
    assert t[..2] == Plain("{%");
    assert Plain("{%") + Own(reg[slug]) + rest == Canonical(slug, reg);
  }

  lemma BareFires(slug: string, reg: Registry)
    requires slug in reg && Scannable(slug)
    ensures var t, rest := Bare(slug), Plain(slug) + Plain("%}");
      && FindOpen(t) == 0 && OpensAt(t, 0) && t[2..] == rest && Slug(rest) == slug
      && Fires(t, reg, 0) && Next(t, reg, 0) == 2
  {
    hide Qualified;
    var plain, x := Plain(slug), Plain("%}");
    var t, rest := Bare(slug), plain + x;
    assert OpensAt(t, 0) && t[2..] == rest;
    assert Chars(plain) == slug && rest[0] == plain[0];
    ScanOfName(plain, x);
    PlainCloseIsTail();
  }

  /** Owners that are names themselves make a stable registry. */
  lemma NameOwnersAreStable(reg: Registry)
    requires forall slug :: slug in reg ==> Scannable(reg[slug])
    ensures Stable(reg)
  {
    hide OwnStays, Qualified, Canonical;
    forall slug | slug in reg && Scannable(slug) ensures OwnStays(reg[slug], slug, reg) {
      NameOwnerIsQuiet(slug, reg);
      QuietIsFixed(Canonical(slug, reg), reg);
      FixedStays(slug, reg);
    }
  }

  lemma NameOwnerIsQuiet(slug: string, reg: Registry)
    requires slug in reg && Scannable(slug) && Scannable(reg[slug])
    ensures Quiet(Canonical(slug, reg), reg)
  {
    var k, own, rest := Canonical(slug, reg), Own(reg[slug]), Own(reg[slug]) + Plain(slug) + Plain("%}");
    assert forall i :: 2 <= i < |k| ==> k[i] == rest[i - 2] && k[i].ch != '{';
    assert k[1].ch == '%' && k[2..] == rest;
    forall o | OpensAt(k, o) ensures !Fires(k, reg, o) {
      assert o == 0;
      OwnReference(slug, reg[slug], Plain("%}"), reg);
    }
  }

  lemma OwnReference(slug: string, owner: string, x: Text, reg: Registry)
    requires Scannable(slug) && Scannable(owner)
    ensures !FiresIn(Own(owner) + Plain(slug) + x, reg)
  {
    hide NameAt, NameEnd;
    var name, after := Plain(owner), Plain("/") + Plain(slug) + x;
    assert Own(owner) + Plain(slug) + x == name + after;
    assert after[0].ch == '/' && after[1].ch == slug[0];
    ScanOfName(name, after);
    assert Namespaced(after);
  }

  /** A name right behind the `{%` is what the scan finds. */
  lemma ScanOfName(name: Text, after: Text)
    requires name != [] && IsLower(name[0].ch) && forall i :: 0 <= i < |name| ==> IsName(name[i].ch)
    requires after == [] || !IsName(after[0].ch)
    ensures var rest := name + after;
      && NameAt(rest) == 0 && NameEnd(rest) == |name|
      && rest[0..|name|] == name && rest[|name|..] == after
  {
    var rest := name + after;
    AllName(name, after);
    NoBlank(rest);
    assert rest[0] == name[0] && rest[0..] == rest;
  }

  /** An owner the name scan cuts short: the second run splices again into its own reference. */
  lemma AnUnderscoreIsSplicedTwice(reg: Registry)
    requires reg == map["x" := "a_b", "a" := "m"]
    ensures !Stable(reg) && !Idempotent(reg)
  {
    hide Qualified, Canonical, Fires, FiresIn, Own, Plain, Idempotent, OpensAt;
    var k, rest := Canonical("x", reg), Own("a_b") + (Plain("x") + Plain("%}"));
    CanonicalParts("x", reg);
    FiresAgain(rest, reg);
    FiresMeans(k, 0, reg);
    FixedIsQuiet(k, reg);
    assert !Quiet(k, reg);
    var slug := "x";
    assert Scannable(slug);
    if Stable(reg) { StableFixes(slug, reg); }
    IdempotentIffStable(reg);
  }

  lemma FiresAgain(rest: Text, reg: Registry)
    requires rest == Own("a_b") + (Plain("x") + Plain("%}")) && "a" in reg
    ensures FiresIn(rest, reg)
  {
    hide FindOpen, FindClose, NameRun, SpaceRun;
    var name, after := Plain("a"), Plain("_b/x%}");
    assert rest == name + after;
    AllName(name, after);
    assert NameRun(rest) == 1;
    NoBlank(rest);
    assert rest[0..] == rest && NameAt(rest) == 0 && NameEnd(rest) == 1;
    assert rest[1..] == after && rest[0..1] == name && Chars(name) == "a";
    assert ClosesAt(after, 4);
    CloseFound(after, 4);
    NoBrace(after);
  }
}
