/** Which tags are rewritten, and to what, spelled out character by character. */
module CardSpelling {
  import opened CardTags

  const BLANKS := " \t\n\r\U{000B}\U{000C}\U{0085}\U{00A0}"

  predicate Blanks(t: Text) { forall i :: 0 <= i < |t| ==> t[i].ch in BLANKS }

  /** What may stand between `{%` and the name: blanks, perhaps with one `/` among them. */
  predicate Lead(t: Text) {
    Blanks(t) || exists k :: 0 <= k < |t| && Blanks(t[..k]) && t[k].ch == '/' && Blanks(t[k + 1..])
  }

  predicate NameLetter(c: char) { 'a' <= c <= 'z' || '0' <= c <= '9' || c == '-' }

  predicate Name(t: Text) {
    t != [] && 'a' <= t[0].ch <= 'z' && forall i :: 0 <= i < |t| ==> NameLetter(t[i].ch)
  }

  predicate Pair(t: Text, i: int, c: char, d: char) { 0 <= i && i + 1 < |t| && t[i].ch == c && t[i + 1].ch == d }

  /** There is a `%}`, and no `{%` before it. */
  predicate Closed(t: Text) {
    exists c :: 0 <= c < |t| && Pair(t, c, '%', '}') && forall i :: 0 <= i < c ==> !Pair(t, i, '{', '%')
  }

  /** What follows does not go on with the name, nor with `/` and a letter. */
  predicate EndsName(t: Text) {
    && (t != [] ==> !NameLetter(t[0].ch))
    && (|t| > 1 && t[0].ch == '/' ==> !('a' <= t[1].ch <= 'z' || 'A' <= t[1].ch <= 'Z'))
  }

  /** A bare tag of a known card, in three parts. */
  predicate BareTag(lead: Text, name: Text, tail: Text, reg: Registry) {
    Lead(lead) && Name(name) && Chars(name) in reg && EndsName(tail) && Closed(tail)
  }

  lemma BlankIsSpace(c: char)
    ensures c in BLANKS <==> IsSpace(c)
  {
    assert BLANKS[0] == ' ' && BLANKS[1] == '\t' && BLANKS[2] == '\n' && BLANKS[3] == '\r';
    assert BLANKS[4] == '\U{000B}' && BLANKS[5] == '\U{000C}' && BLANKS[6] == '\U{0085}' && BLANKS[7] == '\U{00A0}';
    assert forall i :: 0 <= i < |BLANKS| ==> IsSpace(BLANKS[i]);
    if IsSpace(c) {
      var k := c as int;
      assert k == 9 || k == 10 || k == 11 || k == 12 || k == 13 || k == 32 || k == 0x85 || k == 0xA0;
      assert c == BLANKS[0] || c == BLANKS[1] || c == BLANKS[2] || c == BLANKS[3]
          || c == BLANKS[4] || c == BLANKS[5] || c == BLANKS[6] || c == BLANKS[7];
    }
  }

  lemma OneMoreBlank(c: Cell, t: Text)
    ensures Blanks([c] + t) <==> c.ch in BLANKS && Blanks(t)
  {
    var more := [c] + t;
    assert more[0] == c && forall i :: 0 <= i < |t| ==> more[i + 1] == t[i];
    if Blanks(more) {
      forall i | 0 <= i < |t| ensures t[i].ch in BLANKS { assert more[i + 1].ch in BLANKS; }
    }
  }

  lemma {:induction false} SpacesAre(t: Text, k: nat)
    requires k <= |t|
    ensures Blanks(t[..k]) && (k == |t| || t[k].ch !in BLANKS) <==> SpaceRun(t) == k
    decreases |t|
  {
    if t != [] {
      BlankIsSpace(t[0].ch);
      if k > 0 {
        SpacesAre(t[1..], k - 1);
        assert t[..k] == [t[0]] + t[1..][..k - 1];
        OneMoreBlank(t[0], t[1..][..k - 1]);
      }
    }
  }

  lemma {:induction false} NamesAre(t: Text, k: nat)
    requires k <= |t|
    ensures (forall i :: 0 <= i < k ==> NameLetter(t[i].ch)) && (k == |t| || !NameLetter(t[k].ch)) <==> NameRun(t) == k
    decreases |t|
  {
    if t != [] && k > 0 {
      NamesAre(t[1..], k - 1);
      assert forall i :: 1 <= i < k ==> t[i] == t[1..][i - 1];
      assert forall i :: 0 <= i < k - 1 ==> t[1..][i] == t[i + 1];
    }
  }

  lemma {:induction false} FirstPair(t: Text)
    ensures forall i :: 0 <= i < FindOpen(t) ==> !Pair(t, i, '{', '%')
    ensures forall i :: 0 <= i < FindClose(t) ==> !Pair(t, i, '%', '}')
    ensures FindOpen(t) < |t| ==> Pair(t, FindOpen(t), '{', '%')
    ensures FindClose(t) < |t| ==> Pair(t, FindClose(t), '%', '}')
    decreases |t|
  {
    if t != [] {
      FirstPair(t[1..]);
      assert forall i, c, d :: 1 <= i ==> (Pair(t, i, c, d) <==> Pair(t[1..], i - 1, c, d));
    }
  }

  lemma ClosedIs(t: Text)
    ensures Closed(t) <==> ClosesFirst(t)
  {
    FirstPair(t);
    hide FindOpen, FindClose;
    if ClosesFirst(t) { assert Pair(t, FindClose(t), '%', '}'); }
  }

  // ----- where the name is -----

  /** Before a character that is no blank and no `/`, a lead is what the scan passes over. */
  lemma LeadIs(rest: Text, k: nat)
    requires k < |rest| && rest[k].ch !in BLANKS && rest[k].ch != '/'
    ensures Lead(rest[..k]) <==> NameAt(rest) == k
  {
    hide SpaceRun, Blanks;
    SpacesAre(rest, k);
    var lead := rest[..k];
    if j :| 0 <= j < |lead| && Blanks(lead[..j]) && lead[j].ch == '/' && Blanks(lead[j + 1..]) {
      BlankIsSpace('/');
      SpacesAre(rest, j);
      SpacesAre(rest[j + 1..], k - j - 1);
      assert lead[..j] == rest[..j] && lead[j + 1..] == rest[j + 1..][..k - j - 1];
      assert rest[j + 1..][k - j - 1] == rest[k];
    }
    var a := SpaceRun(rest);
    if NameAt(rest) == k && a < k {
      SpacesAre(rest, a);
      SpacesAre(rest[a + 1..], k - a - 1);
      assert lead[..a] == rest[..a] && lead[a + 1..] == rest[a + 1..][..k - a - 1];
    }
  }

  lemma NameStarts(t: Text)
    requires Name(t)
    ensures t[0].ch !in BLANKS && t[0].ch != '/'
  {
    BlankIsSpace(t[0].ch);
  }

  /** The parts of a bare tag are where the scan finds them. */
  lemma PartsAre(lead: Text, name: Text, tail: Text, reg: Registry)
    requires BareTag(lead, name, tail, reg)
    ensures var rest := lead + name + tail;
      FiresIn(rest, reg) && NameAt(rest) == |lead| && NameEnd(rest) == |lead| + |name|
  {
    hide Lead, Closed, NameAt, NameRun, SpaceRun, ClosesFirst;
    var rest := lead + name + tail;
    NameStarts(name);
    assert rest[|lead|] == name[0] && rest[..|lead|] == lead && rest[|lead|..] == name + tail;
    LeadIs(rest, |lead|);
    NamesAre(name + tail, |name|);
    assert rest[|lead| + |name|..] == tail && rest[|lead|..|lead| + |name|] == name;
    ClosedIs(tail);
  }

  lemma WhatFires(rest: Text, reg: Registry)
    requires FiresIn(rest, reg)
    ensures var a, e := NameAt(rest), NameEnd(rest);
      BareTag(rest[..a], rest[a..e], rest[e..], reg) && rest == rest[..a] + rest[a..e] + rest[e..]
  {
    hide Lead, Closed, NameAt, NameRun, SpaceRun, ClosesFirst;
    var a, e := NameAt(rest), NameEnd(rest);
    var name, tail := rest[a..e], rest[e..];
    NamesAre(rest[a..], e - a);
    assert forall i :: 0 <= i < |name| ==> name[i] == rest[a..][i];
    assert tail != [] ==> tail[0] == rest[a..][e - a];
    assert name != [] by { NamesAre(rest[a..], 0); assert rest[a..][0] == rest[a]; }
    NameStarts(name);
    LeadIs(rest, a);
    ClosedIs(tail);
  }

  /** A `{%` outside code is rewritten exactly when a bare tag of a known card is what follows it. */
  lemma RewrittenIff(t: Text, o: nat, reg: Registry)
    requires OpensAt(t, o)
    ensures Fires(t, reg, o) <==>
      !t[o].code && exists lead, name, tail :: t[o + 2..] == lead + name + tail && BareTag(lead, name, tail, reg)
  {
    hide FiresIn, BareTag, NameAt, NameEnd;
    var rest := t[o + 2..];
    if FiresIn(rest, reg) { WhatFires(rest, reg); }
    if lead, name, tail :| rest == lead + name + tail && BareTag(lead, name, tail, reg) {
      PartsAre(lead, name, tail, reg);
    }
  }

  // ----- what comes of a text -----

  predicate NoTag(t: Text) { forall i :: 0 <= i < |t| ==> !Pair(t, i, '{', '%') }

  /** Without a `{%` a text is left alone. */
  lemma UntaggedStays(t: Text, reg: Registry)
    requires NoTag(t)
    ensures Qualified(t, reg) == t
  {
    FirstPair(t);
    hide FindOpen;
    NothingOpens(t, reg);
  }

  /** The text up to the first `{%`. */
  lemma FirstTagAt(head: Text, open: Text, rest: Text)
    requires |open| == 2 && open[0].ch == '{' && open[1].ch == '%' && NoTag(head + open[..1])
    ensures FindOpen(head + open + rest) == |head| && OpensAt(head + open + rest, |head|)
    ensures (head + open + rest)[|head| + 2..] == rest && (head + open + rest)[|head|] == open[0]
  {
    var t := head + open + rest;
    FirstPair(t);
    hide FindOpen;
    assert Pair(t, |head|, '{', '%');
    forall i | 0 <= i < |head| ensures !Pair(t, i, '{', '%') {
      assert t[i] == (head + open[..1])[i] && t[i + 1] == (head + open[..1])[i + 1];
      assert !Pair(head + open[..1], i, '{', '%');
    }
  }

  /** At the first `{%`, one that is rewritten. */
  lemma FirstFires(t: Text, o: nat, start: nat, end: nat, reg: Registry)
    requires o < |t| && FindOpen(t) == o && OpensAt(t, o) && Fires(t, reg, o)
    requires start == o + 2 + NameAt(t[o + 2..]) && end == o + 2 + NameEnd(t[o + 2..])
    ensures start <= end <= |t| && Chars(t[start..end]) in reg
    ensures Qualified(t, reg)
         == t[..start] + Plain(reg[Chars(t[start..end])] + "/") + (t[start..end] + Qualified(t[end..], reg))
  {
    hide FindOpen, Fires, NameAt, NameEnd, Qualified, Next, Spliced;
    Effect(t, o, reg);
    PastTheName(t, o, reg);
    SlugIs(t, o, start, end);
    assert t[0..] == t;
    Turn(t, 0, reg);
    hide Slug, Chars;
  }

  lemma SlugIs(t: Text, o: nat, start: nat, end: nat)
    requires o + 2 <= |t| && start == o + 2 + NameAt(t[o + 2..]) && end == o + 2 + NameEnd(t[o + 2..])
    ensures Slug(t[o + 2..]) == Chars(t[start..end])
  {
    hide NameAt, NameEnd;
    assert t[start..end] == t[o + 2..][start - o - 2..end - o - 2];
  }

  /**
   What comes of the first `{%` of a text: outside code, before a bare tag of a known card, the owner of
   that card and `/` go in right before its name, and whatever follows the name is seen to by itself.
   */
  lemma TagIsRewritten(head: Text, open: Text, lead: Text, name: Text, tail: Text, reg: Registry)
    requires |open| == 2 && open[0].ch == '{' && open[1].ch == '%' && NoTag(head + open[..1])
    requires !open[0].code && BareTag(lead, name, tail, reg)
    ensures Qualified(head + open + (lead + name + tail), reg)
         == head + open + lead + Plain(reg[Chars(name)] + "/") + name + Qualified(tail, reg)
  {
    hide BareTag, NoTag, FindOpen, FiresIn, NameAt, NameEnd, Qualified;
    var rest := lead + name + tail;
    var t := head + open + rest;
    var start, end := |head| + 2 + |lead|, |head| + 2 + |lead| + |name|;
    FirstTagAt(head, open, rest);
    PartsAre(lead, name, tail, reg);
    FirstFires(t, |head|, start, end, reg);
    FiveParts(head, open, lead, name, tail);
    Regrouped(head + open + lead, Plain(reg[Chars(name)] + "/"), name, Qualified(tail, reg));
  }

  lemma FiveParts(head: Text, open: Text, lead: Text, name: Text, tail: Text)
    requires |open| == 2
    ensures var t := head + open + (lead + name + tail);
      var start, end := |head| + 2 + |lead|, |head| + 2 + |lead| + |name|;
      t[..start] == head + open + lead && t[start..end] == name && t[end..] == tail
  {
  }

  lemma Regrouped(a: Text, b: Text, c: Text, d: Text)
    ensures a + b + (c + d) == a + b + c + d
  {
  }

  /** In code, or before anything else, it is left alone, and what follows it is seen to by itself. */
  lemma OtherIsCopied(head: Text, open: Text, rest: Text, reg: Registry)
    requires |open| == 2 && open[0].ch == '{' && open[1].ch == '%' && NoTag(head + open[..1])
    requires open[0].code || forall lead, name, tail :: rest == lead + name + tail ==> !BareTag(lead, name, tail, reg)
    ensures Qualified(head + open + rest, reg) == head + open + Qualified(rest, reg)
  {
    hide BareTag, NoTag, FindOpen, FiresIn;
    var t := head + open + rest;
    FirstTagAt(head, open, rest);
    RewrittenIff(t, |head|, reg);
    assert t[..|head| + 2] == head + open;
  }
}
