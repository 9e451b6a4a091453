/**
 Splicing owners into bare card tags, and where a stream may be cut so that doing it piece
 by piece comes to the same as doing it once at the end.
 */
module CardTags {
  import opened Wrappers

  /** One byte of text (its value as a character) and whether it sits inside markdown code. */
  datatype Cell = Cell(ch: char, code: bool)

  type Text = seq<Cell>

  /** slug -> owner */
  type Registry = map<string, string>

  const OFFICIAL := "mafold"

  function Chars(t: Text): (s: string)
    ensures |s| == |t| && forall i :: 0 <= i < |t| ==> s[i] == t[i].ch
  {
    seq(|t|, i requires 0 <= i < |t| => t[i].ch)
  }

  /** Spliced-in text is never code: only tags outside code are rewritten. */
  function Plain(s: string): (t: Text)
    ensures |t| == |s| && forall i :: 0 <= i < |s| ==> t[i] == Cell(s[i], false)
  {
    seq(|s|, i requires 0 <= i < |s| => Cell(s[i], false))
  }

  predicate IsSpace(c: char) {
    var k := c as int;
    (9 <= k <= 13) || k == 32 || k == 0x85 || k == 0xA0
  }

  predicate IsLower(c: char) { 'a' <= c <= 'z' }

  predicate IsName(c: char) { IsLower(c) || '0' <= c <= '9' || c == '-' }

  predicate IsLetter(c: char) { IsLower(c) || 'A' <= c <= 'Z' }

  predicate OpensAt(t: Text, i: nat) { i + 1 < |t| && t[i].ch == '{' && t[i + 1].ch == '%' }

  predicate ClosesAt(t: Text, i: nat) { i + 1 < |t| && t[i].ch == '%' && t[i + 1].ch == '}' }

  /** The first `{%`, or the length of the text when there is none. */
  function FindOpen(t: Text): (i: nat)
    ensures i <= |t| && (i < |t| ==> OpensAt(t, i))
  {
    if t == [] || OpensAt(t, 0) then 0
    else
      var i := FindOpen(t[1..]);
      assert i < |t[1..]| ==> OpensAt(t[1..], i) && OpensAt(t, 1 + i);
      1 + i
  }

  /** The first `%}`, or the length of the text when there is none. */
  function FindClose(t: Text): (i: nat)
    ensures i <= |t| && (i < |t| ==> ClosesAt(t, i))
  {
    if t == [] || ClosesAt(t, 0) then 0
    else
      var i := FindClose(t[1..]);
      assert i < |t[1..]| ==> ClosesAt(t[1..], i) && ClosesAt(t, 1 + i);
      1 + i
  }

  function SpaceRun(t: Text): (n: nat)
    ensures n <= |t|
  {
    if t == [] || !IsSpace(t[0].ch) then 0 else 1 + SpaceRun(t[1..])
  }

  function NameRun(t: Text): (n: nat)
    ensures n <= |t|
  {
    if t == [] || !IsName(t[0].ch) then 0 else 1 + NameRun(t[1..])
  }

  /** Where the name starts, in what follows a `{%`: past blanks, one `/`, and blanks again. */
  function NameAt(rest: Text): (n: nat)
    ensures n <= |rest|
  {
    var a := SpaceRun(rest);
    if a < |rest| && rest[a].ch == '/' then a + 1 + SpaceRun(rest[a + 1..]) else a
  }

  function NameEnd(rest: Text): (n: nat)
    ensures NameAt(rest) <= n <= |rest|
  {
    NameAt(rest) + NameRun(rest[NameAt(rest)..])
  }

  /** A reference that is already `owner/slug`, as opposed to a self-closing `slug/%}`. */
  predicate Namespaced(after: Text) {
    |after| > 1 && after[0].ch == '/' && IsLetter(after[1].ch)
  }

  /** The run closes before another one opens. */
  predicate ClosesFirst(t: Text) { FindClose(t) < FindOpen(t) }

  /** Is `rest`, what follows a `{%` outside code, a bare tag of a known card? */
  predicate FiresIn(rest: Text, reg: Registry) {
    var start, end := NameAt(rest), NameEnd(rest);
    && start < |rest| && IsLower(rest[start].ch)
    && !Namespaced(rest[end..])
    && ClosesFirst(rest[end..])
    && Chars(rest[start..end]) in reg
  }

  predicate Fires(t: Text, reg: Registry, o: nat)
    requires OpensAt(t, o)
  {
    !t[o].code && FiresIn(t[o + 2..], reg)
  }

  function Slug(rest: Text): string { Chars(rest[NameAt(rest)..NameEnd(rest)]) }

  function Own(owner: string): Text { Plain(owner + "/") }

  /** How far the text is copied past the `{%` at `o`: to the name when it is spliced. */
  function Next(t: Text, reg: Registry, o: nat): (n: nat)
    requires OpensAt(t, o)
    ensures o + 2 <= n <= |t|
  {
    if Fires(t, reg, o) then o + 2 + NameAt(t[o + 2..]) else o + 2
  }

  function Spliced(t: Text, reg: Registry, o: nat): Text
    requires OpensAt(t, o)
  {
    if Fires(t, reg, o) then Own(reg[Slug(t[o + 2..])]) else []
  }

  /** The text with the owner spliced in before every bare tag's name. */
  function Qualified(t: Text, reg: Registry): Text
    decreases |t|
  {
    var o := FindOpen(t);
    if o == |t| then t
    else
      var n := Next(t, reg, o);
      t[..n] + Spliced(t, reg, o) + Qualified(t[n..], reg)
  }

  // ----- the cursor loop -----

  method SkipSpace(text: Text, from: nat) returns (p: nat)
    requires from <= |text|
    ensures p == from + SpaceRun(text[from..])
  {
    p := from;
    while p < |text| && IsSpace(text[p].ch)
      invariant from <= p <= |text|
      invariant from + SpaceRun(text[from..]) == p + SpaceRun(text[p..])
    {
      assert text[p..][1..] == text[p + 1..];
      p := p + 1;
    }
  }

  method SkipName(text: Text, from: nat) returns (p: nat)
    requires from <= |text|
    ensures p == from + NameRun(text[from..])
  {
    p := from;
    while p < |text| && IsName(text[p].ch)
      invariant from <= p <= |text|
      invariant from + NameRun(text[from..]) == p + NameRun(text[p..])
    {
      assert text[p..][1..] == text[p + 1..];
      p := p + 1;
    }
  }

  lemma {:induction false} NothingKnownNothingSpliced(t: Text)
    ensures Qualified(t, map[]) == t
    decreases |t|
  {
    var o := FindOpen(t);
    if o < |t| {
      assert !Fires(t, map[], o);
      NothingKnownNothingSpliced(t[o + 2..]);
      assert t == t[..o + 2] + [] + t[o + 2..];
    }
  }

  lemma {:induction false} FindOpenPast(t: Text, k: nat)
    requires k <= FindOpen(t)
    ensures FindOpen(t[k..]) == FindOpen(t) - k
    decreases k
  {
    if k > 0 {
      assert !OpensAt(t, 0);
      FindOpenPast(t[1..], k - 1);
      assert t[1..][k - 1..] == t[k..];
    } else {
      assert t[0..] == t;
    }
  }

  /** What happens at a `{%` depends only on the text from there on. */
  lemma SameTag(t: Text, k: nat, o: nat, reg: Registry)
    requires k <= o && OpensAt(t, o)
    ensures OpensAt(t[k..], o - k)
    ensures Fires(t[k..], reg, o - k) == Fires(t, reg, o)
    ensures Next(t[k..], reg, o - k) == Next(t, reg, o) - k && Spliced(t[k..], reg, o - k) == Spliced(t, reg, o)
  {
    assert t[k..][o - k + 2..] == t[o + 2..];
  }

  lemma Regroup(a: Text, b: Text, c: Text, d: Text)
    ensures a + b + c + d == a + (b + c + d)
  {
  }

  lemma CutTwice(t: Text, k: nat, n: nat)
    requires k <= n <= |t|
    ensures t[k..][n - k..] == t[n..] && t[..n] == t[..k] + t[k..][..n - k]
  {
  }

  /** Text before the first `{%` is copied as it is. */
  lemma CopiesUpTo(t: Text, k: nat, reg: Registry)
    requires k <= FindOpen(t)
    ensures Qualified(t, reg) == t[..k] + Qualified(t[k..], reg)
  {
    hide FindOpen, Fires, Next, Spliced;
    FindOpenPast(t, k);
    var o := FindOpen(t);
    if o < |t| {
      SameTag(t, k, o, reg);
      var n, u := Next(t, reg, o), t[k..];
      CutTwice(t, k, n);
      Regroup(t[..k], u[..n - k], Spliced(t, reg, o), Qualified(t[n..], reg));
    }
  }

  /** One turn of the loop, as far as what is left to do is concerned. */
  lemma Turn(text: Text, i: nat, reg: Registry)
    requires i <= |text| && FindOpen(text[i..]) < |text| - i
    ensures var open := i + FindOpen(text[i..]);
      && OpensAt(text, open)
      && Qualified(text[i..], reg)
         == text[i..Next(text, reg, open)] + Spliced(text, reg, open) + Qualified(text[Next(text, reg, open)..], reg)
  {
    hide FindOpen, Fires, Next, Spliced;
    var open := i + FindOpen(text[i..]);
    assert OpensAt(text, open);
    SameTag(text, i, open, reg);
    var n := Next(text, reg, open);
    Inside(text, i, n);
  }

  lemma {:induction false} NoOpenInName(t: Text)
    ensures NameRun(t) <= FindOpen(t)
    decreases t
  {
    if t != [] && IsName(t[0].ch) {
      NoOpenInName(t[1..]);
    }
  }

  /** The name itself is copied with the text. */
  lemma PastTheName(text: Text, open: nat, reg: Registry)
    requires OpensAt(text, open)
    ensures var start, end := open + 2 + NameAt(text[open + 2..]), open + 2 + NameEnd(text[open + 2..]);
      Qualified(text[start..], reg) == text[start..end] + Qualified(text[end..], reg)
  {
    hide FindOpen, Qualified, NameAt, NameRun;
    var rest := text[open + 2..];
    var start, end := open + 2 + NameAt(rest), open + 2 + NameEnd(rest);
    Inside(text, open + 2, start);
    NoOpenInName(text[start..]);
    CopiesUpTo(text[start..], end - start, reg);
    Inside(text, start, end);
  }

  lemma Inside(t: Text, k: nat, n: nat)
    requires k <= n <= |t|
    ensures t[k..][..n - k] == t[k..n] && t[k..][n - k..] == t[n..]
  {
  }

  /** Where the name after a `{%` starts and ends. */
  method ReadName(text: Text, open: nat) returns (start: nat, end: nat)
    requires OpensAt(text, open)
    ensures start == open + 2 + NameAt(text[open + 2..]) && end == open + 2 + NameEnd(text[open + 2..])
    ensures start <= end <= |text|
  {
    hide SpaceRun, NameRun;
    ghost var rest := text[open + 2..];
    start := SkipSpace(text, open + 2);
    assert rest[start - (open + 2)..] == text[start..];
    if start < |text| && text[start].ch == '/' {
      assert rest[start + 1 - (open + 2)..] == text[start + 1..];
      start := SkipSpace(text, start + 1);
    }
    assert rest[NameAt(rest)..] == text[start..];
    end := SkipName(text, start);
  }

  lemma FiresSpelled(text: Text, open: nat, start: nat, end: nat, reg: Registry)
    requires OpensAt(text, open)
    requires start == open + 2 + NameAt(text[open + 2..]) && end == open + 2 + NameEnd(text[open + 2..])
    requires start <= end <= |text|
    ensures Slug(text[open + 2..]) == Chars(text[start..end])
    ensures Fires(text, reg, open) <==>
      && !text[open].code && start < |text| && IsLower(text[start].ch)
      && !Namespaced(text[end..]) && ClosesFirst(text[end..]) && Chars(text[start..end]) in reg
  {
    hide NameAt, NameEnd, Namespaced, ClosesFirst;
    var rest := text[open + 2..];
    assert rest[NameEnd(rest)..] == text[end..];
    assert rest[NameAt(rest)..NameEnd(rest)] == text[start..end];
  }

  /** Reading one tag: where its name starts and ends, and the owner to splice in, if any. */
  method ReadTag(text: Text, open: nat, reg: Registry) returns (start: nat, end: nat, owner: Option<string>)
    requires OpensAt(text, open)
    ensures owner.Some? <==> Fires(text, reg, open)
    ensures owner.Some? ==>
      && start == open + 2 + NameAt(text[open + 2..]) && end == open + 2 + NameEnd(text[open + 2..])
      && owner.value == reg[Slug(text[open + 2..])]
  {
    hide FindOpen, FindClose, NameAt, NameEnd, Fires, Slug;
    start, end := ReadName(text, open);
    owner := None;
    FiresSpelled(text, open, start, end, reg);
    if text[open].code || start >= |text| || !IsLower(text[start].ch) {
      return;
    }
    if end + 1 < |text| && text[end].ch == '/' && IsLetter(text[end + 1].ch) {
      return;
    }
    var c := FindClose(text[end..]);
    if c == |text| - end || (FindOpen(text[end..]) < |text| - end && FindOpen(text[end..]) < c) {
      return;
    }
    var slug := Chars(text[start..end]);
    if slug in reg {
      owner := Some(reg[slug]);
    }
  }

  lemma Advance(out: Text, a: Text, b: Text, own: Text, c: Text, q: Text)
    ensures out + a + (b + own + (c + q)) == out + (a + b) + own + c + q
  {
  }

  lemma Effect(t: Text, o: nat, reg: Registry)
    requires OpensAt(t, o)
    ensures o + 2 <= |t|
    ensures !Fires(t, reg, o) ==> Next(t, reg, o) == o + 2 && Spliced(t, reg, o) == []
    ensures Fires(t, reg, o) ==>
      Next(t, reg, o) == o + 2 + NameAt(t[o + 2..]) && Spliced(t, reg, o) == Own(reg[Slug(t[o + 2..])])
      && NameAt(t[o + 2..]) <= NameEnd(t[o + 2..]) <= |t| - o - 2 && Slug(t[o + 2..]) in reg
  {
  }

  lemma NothingOpens(t: Text, reg: Registry)
    requires FindOpen(t) == |t|
    ensures Qualified(t, reg) == t
  {
  }

  /** What the loop has put out, what it has passed without copying yet, and what is to come. */
  ghost function Whole(out: Text, text: Text, copied: nat, i: nat, reg: Registry): Text
    requires copied <= i <= |text|
  {
    out + text[copied..i] + Qualified(text[i..], reg)
  }

  lemma PassedOver(out: Text, text: Text, copied: nat, i: nat, reg: Registry)
    requires copied <= i <= |text| && FindOpen(text[i..]) < |text| - i
    requires var o := i + FindOpen(text[i..]); OpensAt(text, o) ==> !Fires(text, reg, o)
    ensures var o := i + FindOpen(text[i..]);
      o + 2 <= |text| && Whole(out, text, copied, o + 2, reg) == Whole(out, text, copied, i, reg)
  {
    hide Qualified, FindOpen, Fires, Next, Spliced, NameAt, NameEnd, Slug, Own;
    Turn(text, i, reg);
    var o := i + FindOpen(text[i..]);
    Effect(text, o, reg);
    var q := Qualified(text[o + 2..], reg);
    assert text[copied..i] + text[i..o + 2] == text[copied..o + 2];
    assert [] + q == q;
    Advance(out, text[copied..i], text[i..o + 2], [], [], q);
  }

  lemma SplicedIn(out: Text, text: Text, copied: nat, i: nat, start: nat, end: nat, reg: Registry)
    requires copied <= i <= |text| && FindOpen(text[i..]) < |text| - i
    requires var o := i + FindOpen(text[i..]);
      && OpensAt(text, o) && Fires(text, reg, o)
      && start == o + 2 + NameAt(text[o + 2..]) && end == o + 2 + NameEnd(text[o + 2..])
    ensures var o := i + FindOpen(text[i..]);
      && copied <= start <= end <= |text| && Slug(text[o + 2..]) in reg
      && Whole(out + text[copied..start] + Own(reg[Slug(text[o + 2..])]), text, start, end, reg)
         == Whole(out, text, copied, i, reg)
  {
    hide Qualified, FindOpen, Fires, Next, Spliced, NameAt, NameEnd, Slug, Own;
    Turn(text, i, reg);
    var o := i + FindOpen(text[i..]);
    Effect(text, o, reg);
    PastTheName(text, o, reg);
    assert text[copied..i] + text[i..start] == text[copied..start];
    Advance(out, text[copied..i], text[i..start], Own(reg[Slug(text[o + 2..])]), text[start..end],
            Qualified(text[end..], reg));
  }

  lemma Finished(out: Text, text: Text, copied: nat, i: nat, reg: Registry)
    requires copied <= i <= |text| && FindOpen(text[i..]) == |text| - i
    ensures Whole(out, text, copied, i, reg) == out + text[copied..]
  {
    NothingOpens(text[i..], reg);
    assert text[copied..i] + text[i..] == text[copied..];
  }

  /** The source's loop: a cursor, and a mark of how much has been copied. */
  method Qualify(text: Text, reg: Registry) returns (r: Text)
    ensures r == Qualified(text, reg)
  {
    hide Whole, Qualified, FindOpen, Fires, NameAt, NameEnd, Slug, Own;
    if FindOpen(text) == |text| {
      NothingOpens(text, reg);
      return text;
    }
    if reg == map[] {
      NothingKnownNothingSpliced(text);
      return text;
    }
    var out: Text, copied: nat, i: nat := [], 0, 0;
    WholeAtFirst(text, reg);
    while FindOpen(text[i..]) < |text| - i
      invariant copied <= i <= |text| && (copied == 0 ==> out == [])
      invariant Whole(out, text, copied, i, reg) == Qualified(text, reg)
      decreases |text| - i
    {
      var open := i + FindOpen(text[i..]);
      assert OpensAt(text, open) by { Turn(text, i, reg); }
      var start, end, owner := ReadTag(text, open, reg);
      if owner.None? {
        PassedOver(out, text, copied, i, reg);
        i := open + 2;
      } else {
        SplicedIn(out, text, copied, i, start, end, reg);
        out := out + text[copied..start] + Own(owner.value);
        copied := start;
        i := end;
      }
    }
    Finished(out, text, copied, i, reg);
    if copied == 0 {
      return text;
    }
    return out + text[copied..];
  }

  lemma WholeAtFirst(text: Text, reg: Registry)
    ensures Whole([], text, 0, 0, reg) == Qualified(text, reg)
  {
    assert text[0..] == text && [] + text[0..0] + Qualified(text, reg) == Qualified(text, reg);
  }
}
