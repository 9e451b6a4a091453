/**
 Fetching an object over a link that tears: what was delivered is kept, the next try asks for
 the rest, and only tries that bring nothing count against the budget.
 */
module Download {
  import opened Wrappers

  type Byte = n: int | 0 <= n < 256

  const MEDIA_ATTEMPTS := 5
  const FIRST_DELAY := 600

  datatype Ends = Clean | Torn

  /**
   What comes of one try: no head in time, an error status, or a body, continuing where the
   request asked to when it is partial, with the full length if it is stated.
   */
  datatype Reply =
    | NoHead
    | Status(code: nat)
    | Body(partial: bool, stated: Option<nat>, chunks: seq<seq<Byte>>, ends: Ends)

  datatype Progress = Progress(buf: seq<Byte>, total: Option<nat>, attempt: nat, delay: nat)

  datatype Outcome = Going(now: Progress) | Whole(bytes: seq<Byte>) | Gone(code: nat) | GaveUp(have: seq<Byte>)

  const START := Progress([], None, 1, FIRST_DELAY)

  function Flat(chunks: seq<seq<Byte>>): seq<Byte> {
    if chunks == [] then [] else Flat(chunks[..|chunks| - 1]) + chunks[|chunks| - 1]
  }

  function BufAfter(p: Progress, r: Reply): seq<Byte> {
    if r.Body? then (if r.partial then p.buf else []) + Flat(r.chunks) else p.buf
  }

  function TotalAfter(p: Progress, r: Reply): Option<nat> {
    if r.Body? && p.total.None? then r.stated else p.total
  }

  predicate ClientError(code: nat) { 400 <= code < 500 }

  /** One try. */
  function Step(p: Progress, r: Reply): Outcome {
    var buf, total := BufAfter(p, r), TotalAfter(p, r);
    if r.Body? && r.ends.Clean? && (total.None? || |buf| >= total.value) then Whole(buf)
    else if r.Status? && ClientError(r.code) then Gone(r.code)
    else if |buf| > |p.buf| then Going(Progress(buf, total, 1, FIRST_DELAY))
    else if p.attempt >= MEDIA_ATTEMPTS then GaveUp(buf)
    else Going(Progress(buf, total, p.attempt + 1, p.delay * 2))
  }

  /** What the far end answers: to which try, asked from which byte on. */
  type Server = (nat, nat) -> Reply

  /** So many tries on. */
  function Play(server: Server, n: nat): Outcome {
    if n == 0 then Going(START)
    else
      match Play(server, n - 1)
      case Going(p) => Step(p, server(n - 1, |p.buf|))
      case over => over
  }

  // ----- a server of one object -----

  /**
   A reply for one object (RFC 9110, sections 14.2 and 15.3.7): a partial one only to a request
   for a range, continuing the object there; any other body from its start; either may stop
   anywhere; a length stated is the object's.
   */
  predicate Serves(obj: seq<Byte>, have: nat, r: Reply) {
    r.Body? ==>
      && (r.partial ==> 0 < have <= |obj|)
      && Flat(r.chunks) <= obj[if r.partial then have else 0..]
      && (r.stated.Some? ==> r.stated.value == |obj|)
  }

  ghost predicate ServesOne(server: Server, obj: seq<Byte>) {
    forall k: nat, have: nat :: have <= |obj| ==> Serves(obj, have, server(k, have))
  }

  /** A request for a range is never answered with the whole object. */
  ghost predicate HonoursRange(server: Server) {
    forall k: nat, have: nat :: have > 0 && server(k, have).Body? ==> server(k, have).partial
  }

  predicate Sound(obj: seq<Byte>, o: Outcome) {
    match o
    case Going(p) => p.buf <= obj && (p.total.Some? ==> p.total.value == |obj|) && 1 <= p.attempt <= MEDIA_ATTEMPTS
    case Whole(bytes) => bytes <= obj
    case Gone(_) => true
    case GaveUp(have) => have <= obj
  }

  lemma StepIsSound(obj: seq<Byte>, p: Progress, r: Reply)
    requires Sound(obj, Going(p)) && Serves(obj, |p.buf|, r)
    ensures Sound(obj, Step(p, r))
    ensures BufAfter(p, r) <= obj
    ensures Step(p, r).Whole? && TotalAfter(p, r).Some? ==> Step(p, r).bytes == obj
  {
    hide Flat;
    if r.Body? && r.partial {
      var n := |p.buf|;
      assert obj == obj[..n] + obj[n..];
    }
  }

  /** Whatever the link does, what is in hand after any number of tries is how the object begins. */
  lemma {:induction false} AlwaysAPrefix(server: Server, obj: seq<Byte>, n: nat)
    requires ServesOne(server, obj)
    ensures Sound(obj, Play(server, n))
  {
    hide Step, Serves;
    if n > 0 {
      AlwaysAPrefix(server, obj, n - 1);
      if Play(server, n - 1).Going? {
        var p := Play(server, n - 1).now;
        StepIsSound(obj, p, server(n - 1, |p.buf|));
      }
    }
  }

  /** A length stated by any body up to then is remembered. */
  lemma {:induction false} LengthIsRemembered(server: Server, n: nat, k: nat)
    requires Play(server, n).Going? && k < n
    ensures Play(server, k).Going?
    ensures var r := server(k, |Play(server, k).now.buf|);
      r.Body? && r.stated.Some? ==> Play(server, n).now.total.Some?
    decreases n
  {
    hide Flat;
    assert Play(server, n - 1).Going?;
    if k < n - 1 { LengthIsRemembered(server, n - 1, k); }
  }

  /** A length is stated by the n-th try's body. */
  predicate States(server: Server, n: nat) {
    Play(server, n).Going? && var r := server(n, |Play(server, n).now.buf|); r.Body? && r.stated.Some?
  }

  /** The length gone by is the first one stated, whatever is stated later. */
  lemma {:induction false} FirstLengthStands(server: Server, n: nat, k: nat)
    requires Play(server, n).Going? && k < n && States(server, k) && forall j: nat :: j < k ==> !States(server, j)
    ensures Play(server, n).now.total == server(k, |Play(server, k).now.buf|).stated
    decreases n
  {
    hide Flat;
    assert Play(server, n - 1).Going?;
    if k < n - 1 {
      FirstLengthStands(server, n - 1, k);
    } else {
      NoLengthYet(server, k);
    }
  }

  lemma {:induction false} NoLengthYet(server: Server, n: nat)
    requires Play(server, n).Going? && forall j: nat :: j < n ==> !States(server, j)
    ensures Play(server, n).now.total.None?
  {
    hide Flat;
    if n > 0 {
      assert Play(server, n - 1).Going? && !States(server, n - 1);
      NoLengthYet(server, n - 1);
    }
  }

  /** Once the length was stated, by this body or one before, what is handed back is all of the object. */
  lemma WholeIsAll(server: Server, obj: seq<Byte>, n: nat, k: nat)
    requires ServesOne(server, obj) && Play(server, n).Going? && Play(server, n + 1).Whole?
    requires k <= n && Play(server, k).Going?
    requires var r := server(k, |Play(server, k).now.buf|); r.Body? && r.stated.Some?
    ensures Play(server, n + 1).bytes == obj
  {
    hide Serves, Flat;
    AlwaysAPrefix(server, obj, n);
    var p := Play(server, n).now;
    StepIsSound(obj, p, server(n, |p.buf|));
    if k < n { LengthIsRemembered(server, n, k); }
  }

  /** It is only given up after five tries in a row that brought nothing. */
  lemma {:induction false} AttemptsAreBarren(server: Server, n: nat)
    requires Play(server, n).Going?
    ensures var a := Play(server, n).now.attempt;
      1 <= a <= MEDIA_ATTEMPTS && a - 1 <= n && Barren(server, n - (a - 1), n)
  {
    hide Flat;
    if n > 0 {
      AttemptsAreBarren(server, n - 1);
    }
  }

  function Have(server: Server, n: nat): nat {
    match Play(server, n)
    case Going(p) => |p.buf|
    case Whole(bytes) => |bytes|
    case Gone(_) => 0
    case GaveUp(have) => |have|
  }

  /** No try between these brought more than there was. */
  predicate Barren(server: Server, from: int, to: nat)
    requires 0 <= from <= to
  {
    forall i: nat :: from <= i < to ==> Play(server, i).Going? && Have(server, i + 1) <= Have(server, i)
  }

  lemma GivesUpAfterFive(server: Server, n: nat)
    requires Play(server, n).Going? && Play(server, n + 1).GaveUp?
    ensures n + 1 >= 5 && Barren(server, n + 1 - 5, n + 1)
  {
    hide Flat;
    AttemptsAreBarren(server, n);
  }

  /** And there is never a sixth: after five such it is over. */
  lemma {:induction false} FiveAreTheLast(server: Server, n: nat)
    requires Barren(server, n, n + 5)
    ensures !Play(server, n + 5).Going?
  {
    hide Flat;
    AttemptsAreBarren(server, n);
    BarrenTry(server, n);
    BarrenTry(server, n + 1);
    BarrenTry(server, n + 2);
    BarrenTry(server, n + 3);
    BarrenTry(server, n + 4);
    hide Barren, Have, BufAfter, Step, Play;
  }

  lemma BarrenTry(server: Server, n: nat)
    requires Play(server, n).Going? && Have(server, n + 1) <= Have(server, n)
    ensures Play(server, n + 1).Going? ==>
      && Play(server, n).now.attempt < 5
      && Play(server, n + 1).now.attempt == Play(server, n).now.attempt + 1
  {
    hide Flat;
  }

  /** What an error status does: one from 400 to 499 is the end, any other is a try that brought nothing. */
  lemma StatusDecides(server: Server, n: nat)
    requires Play(server, n).Going? && server(n, |Play(server, n).now.buf|).Status?
    ensures var p := Play(server, n).now; var code := server(n, |p.buf|).code;
      Play(server, n + 1) ==
        if 400 <= code <= 499 then Gone(code)
        else if p.attempt >= 5 then GaveUp(p.buf)
        else Going(p.(attempt := p.attempt + 1, delay := p.delay * 2))
  {
  }

  /** The wait before a try, in milliseconds: 600, and twice as long for each barren try since. */
  lemma {:induction false} WaitsAre(server: Server, n: nat)
    requires Play(server, n).Going?
    ensures var p := Play(server, n).now; p.attempt >= 1 && p.delay == 600 * Doubled(p.attempt - 1)
  {
    hide Flat;
    if n > 0 { WaitsAre(server, n - 1); }
  }

  function Doubled(k: nat): nat { if k == 0 then 1 else 2 * Doubled(k - 1) }

  // ----- when it ends -----

  /** The n-th try started over and brought less than there was. */
  predicate Shrinks(server: Server, n: nat) {
    Play(server, n).Going? && var p := Play(server, n).now; |BufAfter(p, server(n, |p.buf|))| < |p.buf|
  }

  /** The buffer shrinks only so many times. */
  ghost predicate Settles(server: Server) { exists n: nat :: SettledFrom(server, n) }

  ghost predicate SettledFrom(server: Server, n: nat) { forall m: nat :: m >= n ==> !Shrinks(server, m) }

  /** A body that starts over brings at least what was in hand. */
  ghost predicate NeverShrinks(server: Server) {
    forall k: nat, have: nat ::
      server(k, have).Body? && !server(k, have).partial ==> |Flat(server(k, have).chunks)| >= have
  }

  /** What is enough, reply by reply: no body that starts over brings less than was in hand. */
  lemma RepliesSettle(server: Server)
    requires HonoursRange(server) || NeverShrinks(server)
    ensures Settles(server)
  {
    forall m: nat ensures !Shrinks(server, m) {
      if Play(server, m).Going? {
        var p := Play(server, m).now;
        var r := server(m, |p.buf|);
        assert HonoursRange(server) && r.Body? && p.buf != [] ==> r.partial;
      }
    }
    assert SettledFrom(server, 0);
  }

  lemma {:induction false} StaysOver(server: Server, n: nat, m: nat)
    requires n <= m && !Play(server, n).Going?
    ensures Play(server, m) == Play(server, n)
    decreases m
  {
    hide Step;
    if n < m { StaysOver(server, n, m - 1); }
  }

  /** Bytes missing, then tries left. */
  function Missing(obj: seq<Byte>, p: Progress): nat
    requires p.buf <= obj && p.attempt <= MEDIA_ATTEMPTS
  {
    (|obj| - |p.buf|) * MEDIA_ATTEMPTS + (MEDIA_ATTEMPTS - p.attempt)
  }

  lemma MissesLess(obj: seq<Byte>, p: Progress, r: Reply)
    requires Sound(obj, Going(p)) && Serves(obj, |p.buf|, r) && |BufAfter(p, r)| >= |p.buf| && Step(p, r).Going?
    ensures Sound(obj, Step(p, r)) && Missing(obj, Step(p, r).now) < Missing(obj, p)
  {
    StepIsSound(obj, p, r);
    hide Serves, BufAfter;
    var q := Step(p, r).now;
    if |q.buf| > |p.buf| { assert |obj| - |q.buf| <= |obj| - |p.buf| - 1; }
  }

  lemma {:induction false} EndsOnceSettled(server: Server, obj: seq<Byte>, n: nat) returns (end: nat)
    requires ServesOne(server, obj) && SettledFrom(server, n)
    ensures !Play(server, end).Going?
    decreases if Play(server, n).Going? then 1 else 0,
      if Sound(obj, Play(server, n)) && Play(server, n).Going? then Missing(obj, Play(server, n).now) else 0
  {
    hide Step, Serves, Missing;
    AlwaysAPrefix(server, obj, n);
    end := n;
    if Play(server, n).Going? {
      var p := Play(server, n).now;
      var r := server(n, |p.buf|);
      assert !Shrinks(server, n);
      assert Play(server, n + 1) == Step(p, r);
      if Step(p, r).Going? { MissesLess(obj, p, r); }
      end := EndsOnceSettled(server, obj, n + 1);
    }
  }

  /**
   The tries come to an end if and only if the buffer shrinks only so many times; else, from any try
   on, it shrinks again.
   */
  lemma EndsIffSettles(server: Server, obj: seq<Byte>)
    requires ServesOne(server, obj)
    ensures (exists n: nat :: !Play(server, n).Going?) <==> Settles(server)
    ensures (forall n: nat :: Play(server, n).Going?) ==> forall n: nat :: !SettledFrom(server, n)
  {
    hide Step, ServesOne;
    if n: nat :| !Play(server, n).Going? {
      forall m: nat | m >= n ensures !Shrinks(server, m) { StaysOver(server, n, m); }
      assert SettledFrom(server, n);
    }
    if Settles(server) {
      var n: nat :| SettledFrom(server, n);
      var end := EndsOnceSettled(server, obj, n);
    }
  }

  // ----- the loop -----

  /** The loop, with a server for which it ends: on the outcome of the tries it took. */
  method DownloadWith(server: Server, ghost obj: seq<Byte>) returns (o: Outcome, ghost tries: nat)
    requires ServesOne(server, obj) && Settles(server)
    ensures !o.Going? && tries > 0 && o == Play(server, tries) && Play(server, tries - 1).Going?
    ensures Sound(obj, o)
  {
    hide Serves, BufAfter, Flat, Settles;
    EndsIffSettles(server, obj);
    ghost var end: nat :| !Play(server, end).Going?;
    var buf: seq<Byte>, total: Option<nat> := [], None;
    var delay: nat, attempt: nat := FIRST_DELAY, 1;
    var k := 0;
    tries := 0;
    while true
      invariant k == tries && Play(server, k) == Going(Progress(buf, total, attempt, delay))
      invariant Sound(obj, Going(Progress(buf, total, attempt, delay)))
      decreases end - tries
    {
      ghost var p := Progress(buf, total, attempt, delay);
      if end <= k { StaysOver(server, end, k); }
      var had := |buf|;
      var r := server(k, had);
      StepIsSound(obj, p, r);
      k, tries := k + 1, tries + 1;
      if r.Status? && ClientError(r.code) { return Gone(r.code), tries; }
      if r.Body? {
        buf := Receive(if r.partial then buf else [], r.chunks);
        assert buf == BufAfter(p, r) by { ReceivedIsBuf(p, r); }
        if total.None? { total := r.stated; }
        if r.ends.Clean? && (total.None? || |buf| >= total.value) { return Whole(buf), tries; }
      } else {
        assert buf == BufAfter(p, r) by { ReceivedIsBuf(p, r); }
      }
      if |buf| > had {
        attempt, delay := 1, FIRST_DELAY;
        continue;
      }
      if attempt >= MEDIA_ATTEMPTS { return GaveUp(buf), tries; }
      delay := delay * 2;
      attempt := attempt + 1;
    }
  }

  /** Chunk by chunk, so that a body that tears leaves what it delivered. */
  method Receive(buf: seq<Byte>, chunks: seq<seq<Byte>>) returns (all: seq<Byte>)
    ensures all == buf + Flat(chunks)
  {
    all := buf;
    var i := 0;
    while i < |chunks|
      invariant 0 <= i <= |chunks|
      invariant all == buf + Flat(chunks[..i])
    {
      all := all + chunks[i];
      i := i + 1;
      assert chunks[..i][..i - 1] == chunks[..i - 1];
    }
    assert chunks[..i] == chunks;
  }

  lemma ReceivedIsBuf(p: Progress, r: Reply)
    ensures BufAfter(p, r) == if r.Body? then (if r.partial then p.buf else []) + Flat(r.chunks) else p.buf
  {
  }

  // ----- what does not hold -----

  /** Answers every request with the whole object, torn after its first byte every other time. */
  function Restarts(k: nat, have: nat): Reply {
    Body(false, Some(2), if k % 2 == 0 then [[7]] else [], Torn)
  }

  /**
   With a server that ignores ranges the loop need not end: the buffer shrinks and grows again,
   and each growth gives the whole budget back.
   */
  lemma {:induction false} MayNeverEnd(n: nat)
    ensures ServesOne(Restarts, [7, 7])
    ensures Play(Restarts, n) == Going(if n % 2 == 1 then Progress([7], Some(2), 1, FIRST_DELAY)
                                       else if n == 0 then START
                                       else Progress([], Some(2), 2, 2 * FIRST_DELAY))
  {
    RestartsServes();
    hide ServesOne, Flat;
    if n > 0 { MayNeverEnd(n - 1); FlatOne(7); }
  }

  lemma RestartsServes()
    ensures ServesOne(Restarts, [7, 7])
  {
    FlatOne(7);
  }

  lemma FlatOne(b: Byte)
    ensures Flat([[b]]) == [b] && Flat([]) == []
  {
    var one: seq<seq<Byte>> := [[b]];
    assert one[..0] == [];
    assert Flat(one) == Flat(one[..0]) + [b];
  }

  /** The n-th try brought the last byte. */
  predicate Completes(server: Server, obj: seq<Byte>, n: nat) {
    && Play(server, n).Going?
    && var p := Play(server, n).now;
       var r := server(n, |p.buf|);
       r.Body? && BufAfter(p, r) == obj && |p.buf| < |obj|
  }

  /** How that body ended. */
  function EndOf(server: Server, n: nat): Ends
    requires Play(server, n).Going? && server(n, |Play(server, n).now.buf|).Body?
  {
    server(n, |Play(server, n).now.buf|).ends
  }

  /** A request from the end of the object on is refused. */
  ghost predicate RefusesPastEnd(server: Server, obj: seq<Byte>) {
    forall k: nat :: server(k, |obj|).Status? && ClientError(server(k, |obj|).code)
  }

  /** Against any server: ended cleanly it is handed back, and torn it is asked for once more from its end on. */
  lemma OnceComplete(server: Server, obj: seq<Byte>, n: nat)
    requires ServesOne(server, obj) && Completes(server, obj, n)
    ensures EndOf(server, n).Clean? ==> Play(server, n + 1) == Whole(obj)
    ensures EndOf(server, n).Torn? ==>
      && Play(server, n + 1).Going? && Play(server, n + 1).now.buf == obj
      && Play(server, n + 2) == Step(Play(server, n + 1).now, server(n + 1, |obj|))
  {
    hide Flat, Serves, BufAfter;
    AlwaysAPrefix(server, obj, n);
    var p := Play(server, n).now;
    StepIsSound(obj, p, server(n, |p.buf|));
  }

  /**
   An object all of whose bytes arrived, from a server that refuses a request past the end: it is handed
   back, then or ever, if and only if the body that brought the last byte also ended cleanly.
   */
  lemma CompleteIffClean(server: Server, obj: seq<Byte>, n: nat)
    requires ServesOne(server, obj) && RefusesPastEnd(server, obj) && Completes(server, obj, n)
    ensures EndOf(server, n).Clean? <==> Play(server, n + 1) == Whole(obj)
    ensures EndOf(server, n).Torn? <==> Play(server, n + 2).Gone?
    ensures (exists m: nat :: Play(server, m).Whole?) <==> EndOf(server, n).Clean?
  {
    hide Flat, Serves, BufAfter;
    OnceComplete(server, obj, n);
    if EndOf(server, n).Torn? {
      forall m: nat ensures !Play(server, m).Whole? {
        if m <= n + 1 && !Play(server, m).Going? { StaysOver(server, m, n + 1); }
        if m > n + 1 { StaysOver(server, n + 2, m); }
      }
    } else {
      StaysOver(server, n + 1, n + 2);
    }
  }

  /**
   From any server: torn with every byte in hand, it comes of the next try exactly when that brings a
   body that ends cleanly and is nothing more, or all of it again; and it is lost to the next exactly
   when that is a client error.
   */
  lemma TornThenAgain(server: Server, obj: seq<Byte>, n: nat)
    requires ServesOne(server, obj) && Completes(server, obj, n) && EndOf(server, n).Torn?
    ensures var next := server(n + 1, |obj|);
      && (Play(server, n + 2) == Whole(obj) <==>
            next.Body? && next.ends.Clean? && (next.partial || Flat(next.chunks) == obj))
      && (Play(server, n + 2).Gone? <==> next.Status? && ClientError(next.code))
  {
    hide Flat;
    OnceComplete(server, obj, n);
    AlwaysAPrefix(server, obj, n + 1);
    var q := Play(server, n + 1).now;
    StepIsSound(obj, q, server(n + 1, |obj|));
  }

  /** Delivers everything and tears before its end; what is then asked for lies past the object. */
  function TearsAtTheEnd(k: nat, have: nat): Reply {
    if have == 0 then Body(false, Some(1), [[7]], Torn) else Status(416)
  }

  /** An object that tore right at its end is lost, although every byte of it was in hand. */
  lemma LostWithEveryByte()
    ensures ServesOne(TearsAtTheEnd, [7]) && HonoursRange(TearsAtTheEnd)
    ensures Play(TearsAtTheEnd, 1) == Going(Progress([7], Some(1), 1, FIRST_DELAY))
    ensures RefusesPastEnd(TearsAtTheEnd, [7]) && Completes(TearsAtTheEnd, [7], 0)
    ensures Play(TearsAtTheEnd, 2) == Gone(416)
  {
    FlatOne(7);
    assert Play(TearsAtTheEnd, 0) == Going(START);
    hide Flat;
  }

  /** The same, but for a server that does not refuse: it sends an empty rest that ends cleanly. */
  function TearsThenEnds(k: nat, have: nat): Reply {
    if have == 0 then Body(false, None, [[7]], Torn) else Body(true, Some(1), [], Clean)
  }

  /** So an object that tore right at its end may yet be handed back. */
  lemma RecoveredAfterATear()
    ensures ServesOne(TearsThenEnds, [7]) && HonoursRange(TearsThenEnds)
    ensures Completes(TearsThenEnds, [7], 0) && EndOf(TearsThenEnds, 0).Torn?
    ensures Play(TearsThenEnds, 2) == Whole([7])
  {
    FlatOne(7);
    assert Play(TearsThenEnds, 0) == Going(START);
    hide Flat;
    assert Play(TearsThenEnds, 1) == Going(Progress([7], None, 1, FIRST_DELAY));
  }

  /** Says nothing of a length, and ends early. */
  function EndsEarly(k: nat, have: nat): Reply { Body(false, None, [[7]], Clean) }

  /** Without a stated length a short body passes for the whole. */
  lemma ShortPassesForWhole()
    ensures ServesOne(EndsEarly, [7, 8]) && Play(EndsEarly, 1) == Whole([7])
  {
    FlatOne(7);
    assert Play(EndsEarly, 0) == Going(START);
    hide Flat;
  }
}
