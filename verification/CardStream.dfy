/**
 Cutting the stream: at the boundary the code picks, qualifying what goes out and what is
 held back separately comes to the same as qualifying the whole.
 */
module CardStream {
  import opened Wrappers
  import opened CardTags

  /** Rust's `rfind("{%")`. */
  function LastOpen(t: Text): (r: Option<nat>)
    ensures r.Some? ==> OpensAt(t, r.value)
  {
    if |t| < 2 then None
    else if OpensAt(t, |t| - 2) then Some(|t| - 2)
    else
      var r := LastOpen(t[..|t| - 1]);
      assert r.Some? ==> OpensAt(t[..|t| - 1], r.value) && OpensAt(t, r.value);
      r
  }

  /** How much of the buffer may go out: not past a `{%` without its `%}`, nor a trailing `{`. */
  function Boundary(buf: Text): (e: nat)
    ensures e <= |buf|
  {
    var last := LastOpen(buf);
    var end := if last.Some? && FindClose(buf[last.value..]) == |buf| - last.value then last.value else |buf|;
    if end > 0 && buf[end - 1].ch == '{' then end - 1 else end
  }

  // ----- finding delimiters in a text and its continuation -----

  lemma {:induction false} OpenFound(t: Text, k: nat)
    requires OpensAt(t, k)
    ensures FindOpen(t) <= k < |t|
    decreases k
  {
    if k > 0 && !OpensAt(t, 0) {
      assert OpensAt(t[1..], k - 1);
      OpenFound(t[1..], k - 1);
    }
  }

  lemma {:induction false} CloseFound(t: Text, k: nat)
    requires ClosesAt(t, k)
    ensures FindClose(t) <= k < |t|
    decreases k
  {
    if k > 0 && !ClosesAt(t, 0) {
      assert ClosesAt(t[1..], k - 1);
      CloseFound(t[1..], k - 1);
    }
  }

  lemma {:induction false} NoneAfterTheLast(t: Text, k: nat)
    requires OpensAt(t, k)
    ensures LastOpen(t).Some? && k <= LastOpen(t).value
    decreases |t|
  {
    if !OpensAt(t, |t| - 2) {
      assert OpensAt(t[..|t| - 1], k);
      NoneAfterTheLast(t[..|t| - 1], k);
    }
  }

  /** No `{%` lies half in `a` and half in any continuation that starts as `b` does. */
  predicate NoStraddle(a: Text, b: Text) {
    a != [] && a[|a| - 1].ch == '{' ==> b != [] && b[0].ch != '%'
  }

  lemma OpenInJoin(a: Text, b: Text)
    ensures FindOpen(a) < |a| ==> FindOpen(a + b) == FindOpen(a)
    ensures FindOpen(a) == |a| ==> FindOpen(a + b) >= |a| - 1
    ensures FindOpen(a) == |a| && NoStraddle(a, b) ==> FindOpen(a + b) == |a| + FindOpen(b)
  {
    hide FindOpen;
    var o, f, g := FindOpen(a), FindOpen(a + b), FindOpen(b);
    if o < |a| {
      assert OpensAt(a + b, o);
      OpenFound(a + b, o);
    }
    if f + 1 < |a| {
      assert OpensAt(a, f);
      OpenFound(a, f);
    }
    if g < |b| {
      assert OpensAt(a + b, |a| + g);
      OpenFound(a + b, |a| + g);
    }
    if |a| <= f < |a + b| {
      assert OpensAt(b, f - |a|);
      OpenFound(b, f - |a|);
    }
  }

  lemma CloseInJoin(a: Text, b: Text)
    ensures FindClose(a) < |a| ==> FindClose(a + b) == FindClose(a)
    ensures FindClose(a) == |a| ==> FindClose(a + b) >= |a| - 1
    ensures FindClose(a) == |a| && b != [] && b[0].ch == '{' ==> FindClose(a + b) == |a| + FindClose(b)
  {
    hide FindClose;
    var o, f, g := FindClose(a), FindClose(a + b), FindClose(b);
    if o < |a| {
      assert ClosesAt(a + b, o);
      CloseFound(a + b, o);
    }
    if f + 1 < |a| {
      assert ClosesAt(a, f);
      CloseFound(a, f);
    }
    if g < |b| {
      assert ClosesAt(a + b, |a| + g);
      CloseFound(a + b, |a| + g);
    }
    if |a| <= f < |a + b| {
      assert ClosesAt(b, f - |a|);
      CloseFound(b, f - |a|);
    }
  }

  predicate HasDelim(t: Text) { FindOpen(t) < |t| || FindClose(t) < |t| }

  /** The text starts with `{%`, or with a `{` and then `{%`. */
  predicate StartsOpen(b: Text) {
    OpensAt(b, 0) || (|b| > 0 && b[0].ch == '{' && OpensAt(b, 1))
  }

  // ----- the scan after a `{%` looks no further than the next delimiter -----

  lemma {:induction false} SpaceChars(t: Text)
    ensures forall k :: 0 <= k < SpaceRun(t) ==> IsSpace(t[k].ch)
    ensures SpaceRun(t) < |t| ==> !IsSpace(t[SpaceRun(t)].ch)
    decreases t
  {
    if t != [] && IsSpace(t[0].ch) {
      SpaceChars(t[1..]);
      assert forall k :: 0 < k < SpaceRun(t) ==> t[k] == t[1..][k - 1];
    }
  }

  lemma {:induction false} NameChars(t: Text)
    ensures forall k :: 0 <= k < NameRun(t) ==> IsName(t[k].ch)
    ensures NameRun(t) < |t| ==> !IsName(t[NameRun(t)].ch)
    decreases t
  {
    if t != [] && IsName(t[0].ch) {
      NameChars(t[1..]);
      assert forall k :: 0 < k < NameRun(t) ==> t[k] == t[1..][k - 1];
    }
  }

  lemma {:induction false} SpaceInJoin(r: Text, b: Text)
    requires SpaceRun(r) < |r| || b == [] || !IsSpace(b[0].ch)
    ensures SpaceRun(r + b) == SpaceRun(r)
    decreases r
  {
    if r == [] {
      assert r + b == b;
    } else if IsSpace(r[0].ch) {
      assert (r + b)[1..] == r[1..] + b;
      SpaceInJoin(r[1..], b);
    }
  }

  lemma {:induction false} NameInJoin(r: Text, b: Text)
    requires NameRun(r) < |r| || b == [] || !IsName(b[0].ch)
    ensures NameRun(r + b) == NameRun(r)
    decreases r
  {
    if r == [] {
      assert r + b == b;
    } else if IsName(r[0].ch) {
      assert (r + b)[1..] == r[1..] + b;
      NameInJoin(r[1..], b);
    }
  }

  /** Nothing the scan passes can be part of a delimiter. */
  lemma ScanChars(r: Text)
    ensures forall k :: 0 <= k < NameEnd(r) ==> r[k].ch != '{' && r[k].ch != '%'
  {
    var s := NameAt(r);
    BlankChars(r);
    NameChars(r[s..]);
    hide NameAt, NameRun;
    assert forall k :: s <= k < NameEnd(r) ==> r[k] == r[s..][k - s];
  }

  lemma BlankChars(r: Text)
    ensures forall k :: 0 <= k < NameAt(r) ==> r[k].ch != '{' && r[k].ch != '%'
  {
    var a, s := SpaceRun(r), NameAt(r);
    SpaceChars(r);
    if a < |r| && r[a].ch == '/' {
      SpaceChars(r[a + 1..]);
      hide SpaceRun, IsSpace;
      assert forall k :: a + 1 <= k < s ==> r[k] == r[a + 1..][k - (a + 1)];
    }
  }

  lemma ScanInJoin(r: Text, b: Text)
    requires NameEnd(r) < |r| || b == [] || b[0].ch == '{'
    ensures NameAt(r + b) == NameAt(r) && NameEnd(r + b) == NameEnd(r)
  {
    var a := SpaceRun(r);
    SpaceInJoin(r, b);
    if a < |r| && r[a].ch == '/' {
      SpaceInJoin(r[a + 1..], b);
      assert (r + b)[a + 1..] == r[a + 1..] + b;
    }
    var s := NameAt(r);
    assert NameAt(r + b) == s;
    assert (r + b)[s..] == r[s..] + b;
    NameInJoin(r[s..], b);
  }

  /** Where the closing check starts there is still the first delimiter ahead. */
  lemma DelimAhead(r: Text)
    requires HasDelim(r)
    ensures NameEnd(r) + 1 < |r| && HasDelim(r[NameEnd(r)..])
  {
    hide NameEnd;
    ScanChars(r);
    var n, o, c := NameEnd(r), FindOpen(r), FindClose(r);
    if o < |r| {
      assert OpensAt(r, o) && OpensAt(r[n..], o - n);
      OpenFound(r[n..], o - n);
    } else {
      assert ClosesAt(r, c) && ClosesAt(r[n..], c - n);
      CloseFound(r[n..], c - n);
    }
  }

  lemma ClosesInJoin(t: Text, b: Text)
    requires HasDelim(t) || StartsOpen(b)
    ensures ClosesFirst(t + b) == ClosesFirst(t)
  {
    OpenInJoin(t, b);
    CloseInJoin(t, b);
    if !HasDelim(t) {
      if OpensAt(b, 0) { OpenFound(b, 0); } else { OpenFound(b, 1); }
    }
  }

  /** What follows a `{%` says already whether it is a tag to rewrite, whatever comes after `b`. */
  predicate Decided(r: Text, b: Text) {
    (r != [] && r[0].ch == '}') || HasDelim(r) || StartsOpen(b)
  }

  lemma FiresInJoin(r: Text, b: Text, reg: Registry)
    requires Decided(r, b)
    ensures FiresIn(r + b, reg) == FiresIn(r, reg)
    ensures FiresIn(r, reg) ==> NameAt(r + b) == NameAt(r) && Slug(r + b) == Slug(r)
  {
    if r != [] && r[0].ch == '}' {
      assert (r + b)[0] == r[0];
    } else {
      FiresInJoinScanned(r, b, reg);
    }
  }

  lemma FiresInJoinScanned(r: Text, b: Text, reg: Registry)
    requires HasDelim(r) || StartsOpen(b)
    ensures FiresIn(r + b, reg) == FiresIn(r, reg)
    ensures FiresIn(r, reg) ==> NameAt(r + b) == NameAt(r) && Slug(r + b) == Slug(r)
  {
    if HasDelim(r) { DelimAhead(r); }
    hide NameAt, NameEnd, ClosesFirst;
    ScanInJoin(r, b);
    var s, n := NameAt(r), NameEnd(r);
    var after := r[n..];
    assert (r + b)[n..] == after + b && (r + b)[s..n] == r[s..n];
    ClosesInJoin(after, b);
    if !HasDelim(r) { NoDelimAhead(r); }
  }

  lemma NoDelimAhead(r: Text)
    requires !HasDelim(r)
    ensures !ClosesFirst(r[NameEnd(r)..])
  {
    hide NameEnd;
    var n := NameEnd(r);
    var c := FindClose(r[n..]);
    if c < |r| - n {
      assert ClosesAt(r[n..], c) && ClosesAt(r, n + c);
      CloseFound(r, n + c);
    }
  }

  // ----- the cut -----

  /** A cut between `a` and `b`: every `{%` of `a` is decided, and none lies across. */
  ghost predicate Clean(a: Text, b: Text) {
    NoStraddle(a, b) && forall o :: OpensAt(a, o) ==> Decided(a[o + 2..], b)
  }

  lemma SameTagInJoin(a: Text, b: Text, o: nat, reg: Registry)
    requires OpensAt(a, o) && Decided(a[o + 2..], b)
    ensures OpensAt(a + b, o)
    ensures Fires(a + b, reg, o) == Fires(a, reg, o)
    ensures Next(a + b, reg, o) == Next(a, reg, o) && Spliced(a + b, reg, o) == Spliced(a, reg, o)
  {
    hide FiresIn, NameAt, Slug, Own;
    assert (a + b)[o + 2..] == a[o + 2..] + b;
    FiresInJoin(a[o + 2..], b, reg);
  }

  lemma CleanFrom(a: Text, b: Text, n: nat)
    requires Clean(a, b) && n <= |a|
    ensures Clean(a[n..], b)
  {
    hide Decided;
    forall o | OpensAt(a[n..], o) ensures Decided(a[n..][o + 2..], b) {
      assert OpensAt(a, n + o) && a[n..][o + 2..] == a[n + o + 2..];
    }
  }

  /** Across a clean cut the two sides can be qualified apart. */
  lemma {:induction false} QualifiedApart(a: Text, b: Text, reg: Registry)
    requires Clean(a, b)
    ensures Qualified(a + b, reg) == Qualified(a, reg) + Qualified(b, reg)
    decreases |a|
  {
    hide FindOpen, Decided, Fires, Next, Spliced;
    OpenInJoin(a, b);
    var o := FindOpen(a);
    if o == |a| {
      CopiesUpTo(a + b, |a|, reg);
      assert (a + b)[..|a|] == a && (a + b)[|a|..] == b;
      assert (a + b)[|a|..] == b;
    } else {
      SameTagInJoin(a, b, o, reg);
      var n := Next(a, reg, o);
      CleanFrom(a, b, n);
      QualifiedApart(a[n..], b, reg);
      assert (a + b)[n..] == a[n..] + b && (a + b)[..n] == a[..n];
      JoinRight(a[..n], Spliced(a, reg, o), Qualified(a[n..], reg), Qualified(b, reg));
    }
  }

  lemma JoinRight(x: Text, y: Text, z: Text, w: Text)
    ensures x + y + (z + w) == x + y + z + w
  {
  }

  lemma LaterDelim(a: Text, o: nat, q: nat)
    requires o + 2 <= q && (OpensAt(a, q) || ClosesAt(a, q))
    ensures HasDelim(a[o + 2..])
  {
    var r := a[o + 2..];
    if OpensAt(a, q) {
      assert OpensAt(r, q - o - 2);
      OpenFound(r, q - o - 2);
    } else {
      assert ClosesAt(r, q - o - 2);
      CloseFound(r, q - o - 2);
    }
  }

  /** The boundary the code picks is a clean cut, whatever the stream brings next. */
  lemma BoundaryIsClean(buf: Text, more: Text)
    ensures Clean(buf[..Boundary(buf)], buf[Boundary(buf)..] + more)
    ensures Boundary(buf) < |buf| ==> buf[Boundary(buf)].ch == '{'
    ensures Boundary(buf) > 0 && Boundary(buf) == |buf| ==> buf[|buf| - 1].ch != '{'
  {
    hide LastOpen, FindClose, FindOpen;
    var e := Boundary(buf);
    var a, b := buf[..e], buf[e..] + more;
    assert e < |buf| ==> b[0] == buf[e];
    forall o | OpensAt(a, o) ensures Decided(a[o + 2..], b) {
      assert OpensAt(buf, o);
      NoneAfterTheLast(buf, o);
      var i := LastOpen(buf).value;
      var c := FindClose(buf[i..]);
      if c == |buf| - i {
        assert b[..2] == buf[e..][..2];
        assert StartsOpen(b);
      } else if o < i {
        assert OpensAt(a, i);
        LaterDelim(a, o, i);
      } else {
        assert ClosesAt(buf[i..], c) && ClosesAt(buf, i + c) && ClosesAt(a, i + c);
        if c == 1 {
          assert a[o + 2].ch == '}';
        } else {
          LaterDelim(a, o, i + c);
        }
      }
    }
  }

  /** A `{%` whose `%}` has not come. */
  ghost predicate Unclosed(buf: Text, o: nat) {
    OpensAt(buf, o) && forall c :: o <= c < |buf| ==> !ClosesAt(buf, c)
  }

  /** Why something is held back from `e` on: a `{` that may become a `{%`, or a `{%` not closed, or both. */
  ghost predicate HeldAt(buf: Text, e: nat) {
    && e < |buf| && buf[e].ch == '{'
    && (e + 1 == |buf| || Unclosed(buf, e) || Unclosed(buf, e + 1))
  }

  lemma HeldForAReason(buf: Text)
    ensures Boundary(buf) < |buf| ==> HeldAt(buf, Boundary(buf))
  {
    hide FindClose;
    var last := LastOpen(buf);
    if last.Some? && FindClose(buf[last.value..]) == |buf| - last.value {
      var i := last.value;
      forall c | i <= c < |buf| ensures !ClosesAt(buf, c) {
        if ClosesAt(buf, c) {
          assert ClosesAt(buf[i..], c - i);
          CloseFound(buf[i..], c - i);
        }
      }
      assert Unclosed(buf, i);
    }
  }

  /**
   How much may go out: up to a cut that is clean whatever the stream brings next, and all of it unless
   what is held back starts with a `{` that may become a tag or with a tag that is not closed.
   */
  method CommitBoundary(buf: Text) returns (end: nat)
    ensures end == Boundary(buf) <= |buf|
    ensures forall more :: Clean(buf[..end], buf[end..] + more)
    ensures end == |buf| || HeldAt(buf, end)
  {
    end := |buf|;
    var last := LastOpen(buf);
    if last.Some? {
      if FindClose(buf[last.value..]) == |buf| - last.value {
        end := last.value;
      }
    }
    if end > 0 && buf[end - 1].ch == '{' {
      end := end - 1;
    }
    HeldForAReason(buf);
    forall more ensures Clean(buf[..end], buf[end..] + more) { BoundaryIsClean(buf, more); }
  }

  /**
   Streamed equals batch, one cut at a time: with e the boundary of what is held, qualifying
   what goes out and then the rest with anything that follows is qualifying it all.
   */
  lemma StreamedEqualsBatch(buf: Text, more: Text, reg: Registry)
    ensures var e := Boundary(buf);
      Qualified(buf[..e], reg) + Qualified(buf[e..] + more, reg) == Qualified(buf + more, reg)
  {
    hide Qualified, Clean, Boundary;
    var e := Boundary(buf);
    BoundaryIsClean(buf, more);
    QualifiedApart(buf[..e], buf[e..] + more, reg);
    assert buf[..e] + (buf[e..] + more) == buf + more;
  }

  /** No `{%` ever straddles the cut. */
  lemma NoTagAcrossTheCut(buf: Text, more: Text)
    requires 0 < Boundary(buf)
    ensures !OpensAt(buf + more, Boundary(buf) - 1)
  {
    BoundaryIsClean(buf, more);
    var e := Boundary(buf);
    assert buf[..e][e - 1] == (buf + more)[e - 1];
    assert e < |buf + more| ==> (buf + more)[e] == (buf[e..] + more)[0];
  }
}
