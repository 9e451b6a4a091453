/**
 One supervisor at work on the directory of requests: the order it takes them in, a whole
 pass with requests coming in meanwhile, and what recovery and sweeping leave.
 */
module ControlDir {
  import opened Wrappers
  import P = ControlProtocol
  import T = ReceiptText

  type Id = string

  datatype Asked = Asked(at: int, action: P.Action)

  /** A request's file, its time kept by renames; unreadable when there is nothing `asked`. */
  datatype File = File(modified: int, asked: Option<Asked>)

  datatype Reply =
    Reply(code: P.Code, detail: Option<string>, oldPid: Option<nat>, newPid: Option<nat>, interrupted: nat)

  datatype Answer = Answer(id: Id, reply: Reply, at: int)

  /**
   One carrying out, with the requests asked meanwhile that wait as it ends, those withdrawn while they are
   being taken then, and the answers collected.
   */
  datatype World = World(reply: Reply, arrived: map<Id, File>, withdrawn: set<Id>, collected: set<Id>)

  /** A request seen to in a pass: what was read of it and what it was answered. */
  datatype Done = Done(id: Id, read: Option<Asked>, reply: Reply)

  const EXPIRES := 60
  const ANSWER_KEPT := 600
  const TAKEN_FOR := 120

  const STOPPED := Reply(P.Interrupted, Some("the supervisor stopped before it finished"), None, None, 0)
  const ILLEGIBLE := Reply(P.Unknown, Some("a request this version of mafold can't read"), None, None, 0)
  const TOO_OLD := Reply(P.Expired, None, None, None, 0)

  // ----- the order requests are taken in -----

  function UpToDash(s: string): string {
    if s == "" || s[0] == '-' then "" else [s[0]] + UpToDash(s[1..])
  }

  /** When it was asked, by its id. */
  function Time(id: Id): int {
    var t := T.ParseInt64(UpToDash(id));
    if t.Some? then t.value else 0
  }

  predicate TextBefore(s: string, t: string) {
    t != "" && (s == "" || s[0] < t[0] || (s[0] == t[0] && TextBefore(s[1..], t[1..])))
  }

  predicate Before(a: Id, b: Id) { Time(a) < Time(b) || (Time(a) == Time(b) && TextBefore(a, b)) }

  lemma {:induction false} TextIsOrdered(s: string, t: string)
    ensures s == t || TextBefore(s, t) || TextBefore(t, s)
    ensures !(TextBefore(s, t) && TextBefore(t, s)) && (s == t ==> !TextBefore(s, t))
    decreases s
  {
    if s != "" && t != "" {
      TextIsOrdered(s[1..], t[1..]);
      assert s == [s[0]] + s[1..] && t == [t[0]] + t[1..];
    }
  }

  lemma {:induction false} TextIsTransitive(s: string, t: string, u: string)
    requires TextBefore(s, t) && TextBefore(t, u)
    ensures TextBefore(s, u)
    decreases s
  {
    if s != "" && s[0] == t[0] == u[0] { TextIsTransitive(s[1..], t[1..], u[1..]); }
  }

  predicate InOrder(ids: seq<Id>) { forall i, j :: 0 <= i < j < |ids| ==> Before(ids[i], ids[j]) }

  predicate Lists(ids: seq<Id>, keys: set<Id>) {
    (forall i :: 0 <= i < |ids| ==> ids[i] in keys) && forall id :: id in keys ==> id in ids
  }

  lemma OrderIsStrict(a: Id, b: Id, c: Id)
    ensures a == b || Before(a, b) || Before(b, a)
    ensures !Before(a, a) && !(Before(a, b) && Before(b, a))
    ensures Before(a, b) && Before(b, c) ==> Before(a, c)
  {
    hide Time, TextBefore;
    TextIsOrdered(a, b);
    TextIsOrdered(a, a);
    if TextBefore(a, b) && TextBefore(b, c) { TextIsTransitive(a, b, c); }
  }

  /** There is only one such order: what a listing gives back does not depend on the directory's. */
  lemma {:induction false} OrderIsUnique(a: seq<Id>, b: seq<Id>, keys: set<Id>)
    requires InOrder(a) && InOrder(b) && Lists(a, keys) && Lists(b, keys)
    ensures a == b
    decreases |a|
  {
    hide Before;
    if a == [] {
      if b != [] { SomeKey(b, keys); }
      assert keys == {};
    } else {
      assert a[0] in keys && a[0] in b;
      assert b[0] in keys && b[0] in a;
      if a[0] != b[0] {
        var i :| 0 <= i < |a| && a[i] == b[0];
        var j :| 0 <= j < |b| && b[j] == a[0];
        assert Before(a[0], b[0]) && Before(b[0], a[0]);
        OrderIsStrict(a[0], b[0], a[0]);
      }
      LessFirst(a, keys);
      LessFirst(b, keys);
      OrderIsUnique(a[1..], b[1..], keys - {a[0]});
      assert a == [a[0]] + a[1..] && b == [b[0]] + b[1..];
    }
  }

  lemma SomeKey(ids: seq<Id>, keys: set<Id>)
    requires Lists(ids, keys) && ids != []
    ensures keys != {}
  {
    assert ids[0] in keys;
  }

  lemma LessFirst(ids: seq<Id>, keys: set<Id>)
    requires InOrder(ids) && Lists(ids, keys) && ids != []
    ensures InOrder(ids[1..]) && Lists(ids[1..], keys - {ids[0]})
  {
    hide Before;
    forall id | id in keys - {ids[0]} ensures id in ids[1..] {
      var i :| 0 <= i < |ids| && ids[i] == id;
      assert ids[1..][i - 1] == id;
    }
    forall i | 0 <= i < |ids[1..]| ensures ids[1..][i] in keys - {ids[0]} {
      assert Before(ids[0], ids[i + 1]);
      OrderIsStrict(ids[0], ids[0], ids[0]);
    }
  }

  /** The id a request is given: the second it was asked, then who asked and how many before. */
  function IdOf(now: nat, pid: nat, n: nat): Id {
    T.Decimal(now) + "-" + T.Decimal(pid) + "-" + T.Decimal(n)
  }

  lemma {:induction false} DashAfter(s: string, t: string)
    requires '-' !in s && (t == "" || t[0] == '-')
    ensures UpToDash(s + t) == s
    decreases s
  {
    if s == "" {
      assert s + t == t;
    } else {
      assert (s + t)[1..] == s[1..] + t;
      DashAfter(s[1..], t);
    }
  }

  lemma TimeReadsBack(now: nat, pid: nat, n: nat)
    requires now < 0x8000_0000_0000_0000
    ensures Time(IdOf(now, pid, n)) == now
  {
    var rest := "-" + T.Decimal(pid) + "-" + T.Decimal(n);
    NoSign(now);
    hide T.Decimal, T.ParseInt64;
    T.DecimalReadsBack(now);
    assert IdOf(now, pid, n) == T.Decimal(now) + rest;
    DashAfter(T.Decimal(now), rest);
  }

  lemma NoSign(n: nat)
    ensures '-' !in T.Decimal(n)
  {
    T.DigitsReadBack(n);
  }

  /** A request asked in an earlier second is taken first. */
  lemma OlderGoesFirst(a: nat, b: nat, p: nat, q: nat, m: nat, n: nat)
    requires a < b < 0x8000_0000_0000_0000
    ensures Before(IdOf(a, p, m), IdOf(b, q, n))
  {
    hide Time, IdOf;
    TimeReadsBack(a, p, m);
    TimeReadsBack(b, q, n);
  }

  /** Where in the order an id belongs. */
  method Place(ids: seq<Id>, id: Id) returns (k: nat)
    requires InOrder(ids) && id !in ids
    ensures k <= |ids| && InOrder(ids[..k] + [id] + ids[k..])
  {
    hide Before;
    k := 0;
    while k < |ids| && Before(ids[k], id)
      invariant k <= |ids|
      invariant forall i :: 0 <= i < k ==> Before(ids[i], id)
    {
      k := k + 1;
    }
    if k < |ids| { OrderIsStrict(ids[k], id, id); }
    forall j | k <= j < |ids| ensures Before(id, ids[j]) { OrderIsStrict(id, ids[k], ids[j]); }
  }

  /** The taken requests that `left` says nobody is at. */
  function Leftovers(taken: map<Id, File>, left: File -> bool): set<Id> {
    set id | id in taken && left(taken[id])
  }

  /** What a recovery or sweep makes of the answers, for the taken requests it abandons. */
  function Abandoned(answers: map<Id, Option<Answer>>, ids: set<Id>, now: int): map<Id, Option<Answer>> {
    answers + map id | id in ids && id !in answers :: Some(Answer(id, STOPPED, now))
  }

  /** Whether an answer is still kept. */
  predicate Kept(a: Option<Answer>, now: int) { a.Some? && now - a.value.at <= ANSWER_KEPT }

  function KeptOf(answers: map<Id, Option<Answer>>, now: int): map<Id, Option<Answer>> {
    map id | id in answers && Kept(answers[id], now) :: answers[id]
  }

  lemma NoneAbandoned(answers: map<Id, Option<Answer>>, now: int)
    ensures Abandoned(answers, {}, now) == answers
  {
  }

  lemma LeftOver(taken: map<Id, File>, left: File -> bool, id: Id)
    requires id in taken
    ensures id in Leftovers(taken, left) <==> left(taken[id])
  {
  }

  lemma LeftoversAreTaken(taken: map<Id, File>, left: File -> bool)
    ensures Leftovers(taken, left) <= taken.Keys
  {
  }

  lemma OneAbandoned(answers: map<Id, Option<Answer>>, gone: set<Id>, id: Id, now: int)
    requires id !in gone
    ensures var before := Abandoned(answers, gone, now);
      Abandoned(answers, gone + {id}, now) ==
        if id in before then before else before[id := Some(Answer(id, STOPPED, now))]
  {
  }

  lemma OneLess(was: map<Id, File>, gone: set<Id>, id: Id)
    ensures was - gone - {id} == was - (gone + {id})
  {
  }

  /** A taken request no pass is still at. */
  predicate Stale(f: File, clock: int) { clock - f.modified > TAKEN_FOR }

  // ----- a pass -----

  type Handler = (nat, P.Action) -> World

  /** Requests asked from now on have ids of their own. */
  ghost predicate NeverReuses(handle: Handler, ids: set<Id>) {
    forall k: nat, a, id :: id in ids ==> id !in handle(k, a).arrived
  }

  /** From some call of the handler on, nothing more is asked meanwhile. */
  ghost predicate FallsQuiet(handle: Handler, quiet: nat) {
    forall k: nat, a :: k >= quiet ==> handle(k, a).arrived == map[]
  }

  ghost predicate NeverCollected(handle: Handler, id: Id) {
    forall k: nat, a :: id !in handle(k, a).collected
  }

  predicate Carried(d: Done, now: int) { d.read.Some? && now - d.read.value.at <= EXPIRES }

  /** How many of these were carried out. */
  function Calls(done: seq<Done>, now: int): nat {
    if done == [] then 0
    else Calls(done[..|done| - 1], now) + (if Carried(done[|done| - 1], now) then 1 else 0)
  }

  /** What a request read so is to be answered, after so many were carried out. */
  function Due(read: Option<Asked>, calls: nat, now: int, handle: Handler): Reply {
    if read.None? then ILLEGIBLE
    else if now - read.value.at > EXPIRES then TOO_OLD
    else handle(calls, read.value.action).reply
  }

  /** What happened while a request was seen to. */
  function During(d: Done, calls: nat, now: int, handle: Handler): World {
    if Carried(d, now) then handle(calls, d.read.value.action) else World(d.reply, map[], {}, {})
  }

  /** Each is answered as it is due, what is carried out being carried out in the order taken. */
  predicate AllDue(done: seq<Done>, now: int, handle: Handler) {
    forall n :: 0 <= n < |done| ==> done[n].reply == Due(done[n].read, Calls(done[..n], now), now, handle)
  }

  lemma DueSoFar(done: seq<Done>, d: Done, now: int, handle: Handler)
    requires AllDue(done, now, handle) && d.reply == Due(d.read, Calls(done, now), now, handle)
    ensures AllDue(done + [d], now, handle)
  {
    hide Due, Calls;
    forall n | 0 <= n <= |done|
      ensures (done + [d])[n].reply == Due((done + [d])[n].read, Calls((done + [d])[..n], now), now, handle)
    {
      assert (done + [d])[..n] == done[..n];
      assert done[..|done|] == done;
    }
  }

  /**
   The requests first waiting stay ahead of all others; each not reached yet lies there as it was
   asked, and each done was read as it was asked and has its answer lying there until collected.
   */
  ghost predicate FirstServed(first: seq<Id>, was: map<Id, File>, done: seq<Done>, queue: seq<Id>,
                              taken: map<Id, File>, answers: map<Id, Option<Answer>>, now: int, handle: Handler)
  {
    && first <= Ids(done) + queue
    && (forall i :: 0 <= i < |first| ==> first[i] in was)
    && (forall j :: |first| <= j < |done| + |queue| ==> (Ids(done) + queue)[j] !in first)
    && (forall i :: |done| <= i < |first| ==> first[i] in taken && taken[first[i]] == was[first[i]])
    && (forall i :: 0 <= i < |first| && i < |done| ==> done[i].read == was[first[i]].asked)
    && (forall i :: 0 <= i < |first| && i < |done| && NeverCollected(handle, first[i]) ==>
          first[i] in answers && answers[first[i]] == Some(Answer(first[i], done[i].reply, now)))
  }

  lemma ServesOn(first: seq<Id>, was: map<Id, File>, done: seq<Done>, queue: seq<Id>,
                 taken: map<Id, File>, answers: map<Id, Option<Answer>>, now: int, handle: Handler,
                 d: Done, more: seq<Id>, gone: set<Id>, arrived: map<Id, File>)
    requires InOrder(first) && FirstServed(first, was, done, queue, taken, answers, now, handle)
    requires queue != [] && d.id == queue[0] && d.read == (if d.id in taken then taken[d.id].asked else None)
    requires forall id :: id in gone ==> !NeverCollected(handle, id)
    requires (forall i :: 0 <= i < |more| ==> more[i] !in first) && forall id :: id in arrived ==> id !in first
    ensures FirstServed(first, was, done + [d], queue[1..] + more, taken - {d.id} + arrived,
                        (answers - gone)[d.id := Some(Answer(d.id, d.reply, now))], now, handle)
  {
    hide Before, NeverCollected;
    var n := |done|;
    var all := Ids(done) + queue;
    var after := Ids(done + [d]) + (queue[1..] + more);
    assert all[n] == d.id;
    assert after[..|all|] == all;
    forall i | n < i < |first| ensures first[i] != d.id {
      assert first[n] == all[n];
      assert Before(first[n], first[i]);
      OrderIsStrict(first[n], first[n], first[n]);
    }
    forall i | 0 <= i < |first| && i < n ensures first[i] != d.id {
      if n < |first| {
        assert first[n] == all[n];
        assert Before(first[i], first[n]);
        OrderIsStrict(first[n], first[n], first[n]);
      } else {
        assert all[n] !in first;
      }
    }
  }

  /** The last answer of each lies there until it is collected. */
  ghost predicate AnswersLie(done: seq<Done>, answers: map<Id, Option<Answer>>, now: int, handle: Handler) {
    forall n :: 0 <= n < |done| && NeverCollected(handle, done[n].id) && LastOf(done, n) ==>
      done[n].id in answers && answers[done[n].id] == Some(Answer(done[n].id, done[n].reply, now))
  }

  /** The n-th was not seen to again. */
  predicate LastOf(done: seq<Done>, n: nat)
    requires n < |done|
  {
    forall m :: n < m < |done| ==> done[m].id != done[n].id
  }

  lemma AnswersLieStill(done: seq<Done>, answers: map<Id, Option<Answer>>, now: int, handle: Handler,
                        d: Done, gone: set<Id>)
    requires AnswersLie(done, answers, now, handle)
    requires forall id :: id in gone ==> !NeverCollected(handle, id)
    ensures AnswersLie(done + [d], (answers - gone)[d.id := Some(Answer(d.id, d.reply, now))], now, handle)
  {
    hide NeverCollected;
    var more := done + [d];
    forall n | 0 <= n < |done| && LastOf(more, n) ensures LastOf(done, n) && done[n].id != d.id {
      assert more[|done|] == d && more[n] == done[n];
      forall m | n < m < |done| ensures done[m].id != done[n].id { assert more[m] == done[m]; }
    }
  }

  lemma SweepingKeepsAnswers(done: seq<Done>, answers: map<Id, Option<Answer>>, now: int, handle: Handler,
                             gone: set<Id>)
    requires AnswersLie(done, answers, now, handle)
    ensures AnswersLie(done, KeptOf(Abandoned(answers, gone, now), now), now, handle)
  {
    hide NeverCollected, LastOf;
  }

  function Ids(done: seq<Done>): (ids: seq<Id>)
    ensures |ids| == |done| && forall i :: 0 <= i < |done| ==> ids[i] == done[i].id
  {
    seq(|done|, i requires 0 <= i < |done| => done[i].id)
  }

  class Dir {
    var requests: map<Id, File>
    var taken: map<Id, File>
    var answers: map<Id, Option<Answer>>

    /** The requests waiting, oldest first. */
    method Waiting() returns (ids: seq<Id>)
      ensures InOrder(ids) && Lists(ids, requests.Keys)
    {
      hide Before;
      ids := [];
      var left := requests.Keys;
      while left != {}
        invariant left <= requests.Keys
        invariant InOrder(ids) && Lists(ids, requests.Keys - left)
        decreases |left|
      {
        var id :| id in left;
        var k := Place(ids, id);
        ghost var was := ids;
        ids := ids[..k] + [id] + ids[k..];
        left := left - {id};
        Placed(was, k, id, requests.Keys - left - {id});
        assert requests.Keys - left == (requests.Keys - left - {id}) + {id};
      }
    }

    /** Takes every request waiting, by renaming each; one its asker withdrew since the directory was read is gone. */
    method Take(withdrawn: set<Id>) returns (ids: seq<Id>)
      modifies `requests, `taken
      ensures InOrder(ids) && Lists(ids, (old(requests) - withdrawn).Keys)
      ensures requests == map[] && taken == old(taken) + (old(requests) - withdrawn)
    {
      hide *;
      var listed := Waiting();
      requests := requests - withdrawn;
      ghost var asked, was := requests, taken;
      ids := [];
      var i := 0;
      NoneTakenYet(listed, asked, was);
      while i < |listed|
        invariant 0 <= i <= |listed|
        invariant Taking(listed, i, asked, was, requests, taken, ids)
      {
        var id := listed[i];
        NextTaken(listed, i, asked, was, requests, taken, ids);
        // Gone already: withdrawn.
        if id in requests {
          taken := taken[id := requests[id]];
          requests := requests - {id};
          ids := ids + [id];
        }
        i := i + 1;
      }
      AllTaken(listed, old(requests), withdrawn, was, requests, taken, ids);
    }

    /** One that stopped mid-way, or took these on its way out, answers them no more. */
    method Abandon(now: int, left: File -> bool)
      modifies `taken, `answers
      ensures taken == old(taken) - Leftovers(old(taken), left)
      ensures answers == Abandoned(old(answers), Leftovers(old(taken), left), now)
    {
      hide Leftovers, Abandoned;
      hide *;
      ghost var was := taken;
      ghost var gone: set<Id> := {};
      var todo := taken.Keys;
      NoneAbandoned(answers, now);
      LeftoversAreTaken(taken, left);
      while todo != {}
        invariant todo <= was.Keys
        invariant gone == Leftovers(was, left) - todo
        invariant taken == was - gone
        invariant answers == Abandoned(old(answers), gone, now)
        decreases |todo|
      {
        var id :| id in todo;
        todo := todo - {id};
        LeftOver(was, left, id);
        assert taken[id] == was[id] && id !in gone;
        if left(taken[id]) {
          OneAbandoned(old(answers), gone, id, now);
          if id !in answers { answers := answers[id := Some(Answer(id, STOPPED, now))]; }
          OneLess(was, gone, id);
          taken := taken - {id};
          gone := gone + {id};
        }
      }
      assert gone == Leftovers(was, left);
    }

    /** At supervisor start: every taken request is one the supervisor before left. */
    method Recover(now: int)
      modifies `taken, `answers
      ensures taken == map[] && answers == Abandoned(old(answers), old(taken.Keys), now)
    {
      Abandon(now, f => true);
      assert Leftovers(old(taken), f => true) == old(taken.Keys);
    }

    /** Clears the answers nobody came for. */
    method ClearAnswers(now: int)
      modifies `answers
      ensures answers == KeptOf(old(answers), now)
    {
      var todo := answers.Keys;
      while todo != {}
        invariant todo <= old(answers.Keys)
        invariant forall id :: id in answers <==> id in old(answers) && (id in todo || Kept(old(answers)[id], now))
        invariant forall id :: id in answers ==> answers[id] == old(answers)[id]
        decreases |todo|
      {
        var id :| id in todo;
        if !Kept(answers[id], now) { answers := answers - {id}; }
        todo := todo - {id};
      }
    }

    method Sweep(now: int, clock: int)
      modifies `taken, `answers
      ensures var stale := Leftovers(old(taken), f => Stale(f, clock));
        taken == old(taken) - stale && answers == KeptOf(Abandoned(old(answers), stale, now), now)
    {
      Abandon(now, f => Stale(f, clock));
      ClearAnswers(now);
    }

    /** Reads a taken request, carries it out unless it can't be read or is too old, and answers it. */
    method Serve(id: Id, calls: nat, now: int, handle: Handler) returns (d: Done, withdrawn: set<Id>)
      modifies this
      ensures d.id == id && d.read == (if id in old(taken) then old(taken)[id].asked else None)
      ensures d.reply == Due(d.read, calls, now, handle)
      ensures taken == old(taken) - {id}
      ensures withdrawn == During(d, calls, now, handle).withdrawn
      ensures requests == old(requests) + During(d, calls, now, handle).arrived
      ensures answers ==
                (old(answers) - During(d, calls, now, handle).collected)[id := Some(Answer(id, d.reply, now))]
    {
      var read := if id in taken then taken[id].asked else None;
      var reply := ILLEGIBLE;
      withdrawn := {};
      if read.Some? {
        if now - read.value.at > EXPIRES {
          reply := TOO_OLD;
        } else {
          var w := handle(calls, read.value.action);
          requests, answers := requests + w.arrived, answers - w.collected;
          reply, withdrawn := w.reply, w.withdrawn;
        }
      }
      answers := answers[id := Some(Answer(id, reply, now))];
      taken := taken - {id};
      d := Done(id, read, reply);
    }

    /** Sees to the next request, and takes what was asked meanwhile. */
    method ServeNext(queue: seq<Id>, calls: nat, now: int, handle: Handler,
                     ghost first: seq<Id>, ghost asked: map<Id, File>, ghost was: map<Id, File>, ghost done: seq<Done>)
      returns (d: Done, more: seq<Id>)
      requires queue != [] && requests == map[]
      requires Going(first, asked, was, done, queue, taken, answers, calls, now, handle)
      modifies this
      ensures requests == map[]
      ensures Lists(more, (During(d, calls, now, handle).arrived - During(d, calls, now, handle).withdrawn).Keys)
      ensures Going(first, asked, was, done + [d], queue[1..] + more, taken, answers,
                    if Carried(d, now) then calls + 1 else calls, now, handle)
    {
      hide *;
      ghost var before, held := taken, answers;
      var left: set<Id>;
      d, left := Serve(queue[0], calls, now, handle);
      NothingBesides(requests, During(d, calls, now, handle).arrived);
      ghost var arrived, gone := requests - left, During(d, calls, now, handle).collected;
      more := Take(left);
      GoesOn(first, asked, was, done, queue, before, held, calls, now, handle, d, more, gone, arrived);
    }

    /**
     Takes, and sees to what it took and to whatever is asked meanwhile, until nothing waits or, when told
     how far, that many have been seen to. Told nothing, it ends when requests stop coming in.
     */
    method Pass(now: int, withdrawn: set<Id>, handle: Handler, far: Option<nat>, ghost quiet: nat)
      returns (done: seq<Done>, queue: seq<Id>)
      requires far.None? ==> FallsQuiet(handle, quiet)
      modifies this
      ensures queue == [] || far == Some(|done|)
      ensures AllDue(done, now, handle) && AnswersLie(done, answers, now, handle)
      ensures requests == map[] && TakenKnown(old(taken), taken, queue, done)
      ensures SeenInOrder(old(requests) - withdrawn, done, queue, taken, answers, now, handle)
    {
      hide *;
      ghost var was, asked := taken, requests - withdrawn;
      queue := Take(withdrawn);
      var calls := 0;
      done := [];
      ghost var first := queue;
      GoesFirst(first, asked, was, answers, now, handle);
      ghost var still := quiet;
      while queue != [] && far != Some(|done|)
        invariant far.Some? ==> |done| <= far.value
        invariant requests == map[]
        invariant Going(first, asked, was, done, queue, taken, answers, calls, now, handle)
        invariant calls + still >= quiet
        decreases if far.Some? then far.value - |done| else 0, still, |queue|
      {
        var d, more := ServeNext(queue, calls, now, handle, first, asked, was, done);
        if far.None? { NothingMore(more, d, calls, now, handle, quiet); }
        done := done + [d];
        queue := queue[1..] + more;
        if Carried(d, now) {
          calls := calls + 1;
          if still > 0 { still := still - 1; }
        }
      }
      GoneThrough(first, asked, was, done, queue, taken, answers, calls, now, handle);
    }

    /**
     One pass. Whatever is asked meanwhile, the requests waiting at its start, and not withdrawn while they
     are being taken, are seen to first, oldest first, each read as it was asked and answered as due;
     everything asked until it ends is seen to as well, if not withdrawn; and nothing but stale taken files
     of others is touched besides.
     */
    method ServeOnce(now: int, clock: int, withdrawn: set<Id>, handle: Handler, ghost quiet: nat)
      returns (done: seq<Done>)
      requires FallsQuiet(handle, quiet)
      modifies this
      ensures AllDue(done, now, handle) && AnswersLie(done, answers, now, handle) && requests == map[]
      ensures SeenInOrder(old(requests) - withdrawn, done, [], taken, answers, now, handle)
      ensures forall id :: id in taken ==> id in old(taken) && taken[id] == old(taken)[id] && id !in Ids(done)
      ensures forall id :: id in old(taken) && id !in taken ==> id in Ids(done) || Stale(old(taken)[id], clock)
    {
      hide AllDue, SeenInOrder, Ids, AnswersLie;
      ghost var asked := requests - withdrawn;
      ghost var queue;
      done, queue := Pass(now, withdrawn, handle, None, quiet);
      ghost var held, was := answers, taken;
      Sweep(now, clock);
      ghost var stale := Leftovers(was, f => Stale(f, clock));
      SweepingKeepsSeen(asked, done, was, held, now, handle, taken, stale);
      SweepingKeepsAnswers(done, held, now, handle, stale);
    }
  }

  lemma SweepingKeepsSeen(asked: map<Id, File>, done: seq<Done>, taken: map<Id, File>,
                          answers: map<Id, Option<Answer>>, now: int, handle: Handler, left: map<Id, File>,
                          gone: set<Id>)
    requires SeenInOrder(asked, done, [], taken, answers, now, handle)
    ensures SeenInOrder(asked, done, [], left, KeptOf(Abandoned(answers, gone, now), now), now, handle)
  {
    hide InOrder, NeverReuses, Lists, FirstServed, Ids, Abandoned, KeptOf;
    if NeverReuses(handle, asked.Keys) {
      SweepingKeepsServed((Ids(done) + [])[..|asked|], asked, done, taken, answers, now, handle, left, gone);
    }
  }

  lemma SweepingKeepsServed(first: seq<Id>, asked: map<Id, File>, done: seq<Done>, taken: map<Id, File>,
                            answers: map<Id, Option<Answer>>, now: int, handle: Handler, left: map<Id, File>,
                            gone: set<Id>)
    requires FirstServed(first, asked, done, [], taken, answers, now, handle)
    ensures FirstServed(first, asked, done, [], left, KeptOf(Abandoned(answers, gone, now), now), now, handle)
  {
    hide NeverCollected;
    assert |first| <= |Ids(done) + []|;
  }

  lemma NothingBesides(requests: map<Id, File>, arrived: map<Id, File>)
    requires requests == map[] + arrived
    ensures requests == arrived
  {
  }

  lemma AheadStill(first: seq<Id>, done: seq<Done>, queue: seq<Id>, d: Done, more: seq<Id>)
    requires Ahead(first, done, queue) && queue != [] && d.id == queue[0]
    ensures Ahead(first, done + [d], queue[1..] + more)
  {
    assert Ids(done + [d]) + (queue[1..] + more) == Ids(done) + queue + more;
  }

  lemma AheadAtLast(first: seq<Id>, done: seq<Done>, queue: seq<Id>)
    requires Ahead(first, done, queue)
    ensures |first| <= |Ids(done) + queue| && (Ids(done) + queue)[..|first|] == first
  {
  }

  /** Those waiting at the start come first of all that were seen to or are still to be, oldest first. */
  ghost predicate SeenInOrder(asked: map<Id, File>, done: seq<Done>, queue: seq<Id>, taken: map<Id, File>,
                              answers: map<Id, Option<Answer>>, now: int, handle: Handler)
  {
    var seen := Ids(done) + queue;
    && |asked| <= |seen|
    && var first := seen[..|asked|];
       && InOrder(first) && Lists(first, asked.Keys)
       && (NeverReuses(handle, asked.Keys) ==> FirstServed(first, asked, done, queue, taken, answers, now, handle))
  }

  /** How a pass stands. */
  ghost predicate Going(first: seq<Id>, asked: map<Id, File>, was: map<Id, File>, done: seq<Done>, queue: seq<Id>,
                        taken: map<Id, File>, answers: map<Id, Option<Answer>>, calls: nat, now: int,
                        handle: Handler)
  {
    && InOrder(first) && Lists(first, asked.Keys) && |first| == |asked|
    && calls == Calls(done, now) && AllDue(done, now, handle) && AnswersLie(done, answers, now, handle)
    && (NeverReuses(handle, asked.Keys) ==> FirstServed(first, asked, done, queue, taken, answers, now, handle))
    && Ahead(first, done, queue) && TakenKnown(was, taken, queue, done)
  }

  lemma GoesFirst(first: seq<Id>, asked: map<Id, File>, was: map<Id, File>, answers: map<Id, Option<Answer>>,
                  now: int, handle: Handler)
    requires InOrder(first) && Lists(first, asked.Keys)
    ensures Going(first, asked, was, [], first, was + asked, answers, 0, now, handle)
  {
    FirstTaken(first, asked, was, answers, now, handle);
    TakenAtFirst(was, first, asked);
    assert AnswersLie([], answers, now, handle);
    hide InOrder, Lists, Calls, AllDue, NeverReuses, FirstServed, Ahead, TakenKnown;
  }

  lemma GoesOn(first: seq<Id>, asked: map<Id, File>, was: map<Id, File>, done: seq<Done>, queue: seq<Id>,
               taken: map<Id, File>, answers: map<Id, Option<Answer>>, calls: nat, now: int, handle: Handler,
               d: Done, more: seq<Id>, gone: set<Id>, arrived: map<Id, File>)
    requires Going(first, asked, was, done, queue, taken, answers, calls, now, handle) && queue != []
    requires d.id == queue[0] && d.read == (if d.id in taken then taken[d.id].asked else None)
    requires d.reply == Due(d.read, calls, now, handle) && Lists(more, arrived.Keys)
    requires gone == During(d, calls, now, handle).collected
    requires arrived == During(d, calls, now, handle).arrived - During(d, calls, now, handle).withdrawn
    ensures Going(first, asked, was, done + [d], queue[1..] + more, taken - {d.id} + arrived,
                  (answers - gone)[d.id := Some(Answer(d.id, d.reply, now))],
                  if Carried(d, now) then calls + 1 else calls, now, handle)
  {
    hide InOrder, Lists, Calls, AllDue, NeverReuses, FirstServed, Ahead, TakenKnown, During, Due, Carried;
    hide AnswersLie, NeverCollected;
    DueSoFar(done, d, now, handle);
    CollectedIsCollected(d, calls, now, handle);
    AnswersLieStill(done, answers, now, handle, d, gone);
    TakenGoesOn(was, taken, queue, done, d, more, arrived);
    if NeverReuses(handle, asked.Keys) {
      NoneReused(handle, asked, first, calls, d, now, more, arrived);
      ServesOn(first, asked, done, queue, taken, answers, now, handle, d, more, gone, arrived);
    }
    AheadStill(first, done, queue, d, more);
    CallsGrow(done, d, now);
  }

  lemma GoneThrough(first: seq<Id>, asked: map<Id, File>, was: map<Id, File>, done: seq<Done>, queue: seq<Id>,
                    taken: map<Id, File>, answers: map<Id, Option<Answer>>, calls: nat, now: int, handle: Handler)
    requires Going(first, asked, was, done, queue, taken, answers, calls, now, handle)
    ensures AllDue(done, now, handle) && TakenKnown(was, taken, queue, done) && AnswersLie(done, answers, now, handle)
    ensures SeenInOrder(asked, done, queue, taken, answers, now, handle)
  {
    hide AnswersLie;
    AheadAtLast(first, done, queue);
  }

  lemma CollectedIsCollected(d: Done, calls: nat, now: int, handle: Handler)
    ensures forall id :: id in During(d, calls, now, handle).collected ==> !NeverCollected(handle, id)
  {
  }

  predicate Ahead(first: seq<Id>, done: seq<Done>, queue: seq<Id>) { first <= Ids(done) + queue }

  lemma NothingMore(more: seq<Id>, d: Done, calls: nat, now: int, handle: Handler, quiet: nat)
    requires FallsQuiet(handle, quiet)
    requires Lists(more, (During(d, calls, now, handle).arrived - During(d, calls, now, handle).withdrawn).Keys)
    ensures !Carried(d, now) || calls >= quiet ==> more == []
  {
    if more != [] { assert more[0] in During(d, calls, now, handle).arrived; }
  }

  lemma CallsGrow(done: seq<Done>, d: Done, now: int)
    ensures Calls(done + [d], now) == Calls(done, now) + (if Carried(d, now) then 1 else 0)
  {
    assert (done + [d])[..|done|] == done;
  }

  lemma NoneReused(handle: Handler, asked: map<Id, File>, first: seq<Id>, calls: nat, d: Done, now: int,
                   more: seq<Id>, arrived: map<Id, File>)
    requires NeverReuses(handle, asked.Keys) && Lists(first, asked.Keys) && Lists(more, arrived.Keys)
    requires arrived == During(d, calls, now, handle).arrived - During(d, calls, now, handle).withdrawn
    ensures forall i :: 0 <= i < |more| ==> more[i] !in first
    ensures forall id :: id in arrived ==> id !in first
  {
  }

  lemma TakenAtFirst(was: map<Id, File>, first: seq<Id>, asked: map<Id, File>)
    requires Lists(first, asked.Keys)
    ensures TakenKnown(was, was + asked, first, [])
  {
  }

  lemma FirstTaken(first: seq<Id>, was: map<Id, File>, taken: map<Id, File>, answers: map<Id, Option<Answer>>,
                   now: int, handle: Handler)
    requires InOrder(first) && Lists(first, was.Keys)
    ensures Calls([], now) == 0 && AllDue([], now, handle)
    ensures FirstServed(first, was, [], first, taken + was, answers, now, handle)
    ensures |first| == |was| && Ahead(first, [], first)
  {
    hide Before, NeverCollected;
    assert Ids([]) == [];
    assert Ids([]) + first == first;
    ListLength(first, was.Keys);
    hide Lists, Calls, AllDue;
  }

  lemma {:induction false} ListLength(ids: seq<Id>, keys: set<Id>)
    requires InOrder(ids) && Lists(ids, keys)
    ensures |ids| == |keys|
    decreases |ids|
  {
    hide Before;
    if ids == [] {
      assert keys == {};
    } else {
      assert ids[0] in keys;
      LessFirst(ids, keys);
      ListLength(ids[1..], keys - {ids[0]});
    }
  }

  /** A taken file is one still queued, or one this pass has not touched. */
  predicate TakenKnown(was: map<Id, File>, taken: map<Id, File>, queue: seq<Id>, done: seq<Done>) {
    && (forall id :: id in taken ==> id in queue || (id in was && taken[id] == was[id] && id !in Ids(done)))
    && (forall id :: id in was ==> id in taken || id in Ids(done))
  }

  lemma TakenGoesOn(was: map<Id, File>, taken: map<Id, File>, queue: seq<Id>, done: seq<Done>,
                    d: Done, more: seq<Id>, arrived: map<Id, File>)
    requires TakenKnown(was, taken, queue, done) && queue != [] && d.id == queue[0] && Lists(more, arrived.Keys)
    ensures TakenKnown(was, taken - {d.id} + arrived, queue[1..] + more, done + [d])
  {
    var after, left := taken - {d.id} + arrived, queue[1..] + more;
    assert Ids(done + [d]) == Ids(done) + [d.id];
    assert queue == [d.id] + queue[1..];
    forall id | id in after
      ensures id in left || (id in was && after[id] == was[id] && id !in Ids(done + [d]))
    {
      if id in arrived { assert id in more; }
    }
  }

  /** As far as the i-th name of the listing, what was there to rename has been. */
  ghost predicate Taking(listed: seq<Id>, i: nat, asked: map<Id, File>, was: map<Id, File>, requests: map<Id, File>,
                   taken: map<Id, File>, ids: seq<Id>)
  {
    && i <= |listed| && InOrder(listed)
    && requests == LeftOf(asked, listed[..i])
    && taken == was + OutOf(asked, listed[..i])
    && InOrder(ids) && (forall id :: id in ids <==> id in asked && id in listed[..i])
  }

  function LeftOf(asked: map<Id, File>, ids: seq<Id>): map<Id, File> { map id | id in asked && id !in ids :: asked[id] }

  function OutOf(asked: map<Id, File>, ids: seq<Id>): map<Id, File> { map id | id in asked && id in ids :: asked[id] }

  lemma OneOutOf(asked: map<Id, File>, was: map<Id, File>, ids: seq<Id>, id: Id)
    requires id !in ids
    ensures id in LeftOf(asked, ids) <==> id in asked
    ensures id in asked ==>
      && LeftOf(asked, ids + [id]) == LeftOf(asked, ids) - {id}
      && was + OutOf(asked, ids + [id]) == (was + OutOf(asked, ids))[id := LeftOf(asked, ids)[id]]
    ensures id !in asked ==>
              LeftOf(asked, ids + [id]) == LeftOf(asked, ids) && OutOf(asked, ids + [id]) == OutOf(asked, ids)
  {
    assert forall x :: x in ids + [id] <==> x in ids || x == id;
  }

  lemma NoneTakenYet(listed: seq<Id>, asked: map<Id, File>, was: map<Id, File>)
    requires InOrder(listed)
    ensures Taking(listed, 0, asked, was, asked, was, [])
  {
  }

  lemma NextTaken(listed: seq<Id>, i: nat, asked: map<Id, File>, was: map<Id, File>, requests: map<Id, File>,
                  taken: map<Id, File>, ids: seq<Id>)
    requires i < |listed| && Taking(listed, i, asked, was, requests, taken, ids)
    ensures var id := listed[i];
      if id in requests then
        Taking(listed, i + 1, asked, was, requests - {id}, taken[id := requests[id]], ids + [id])
      else Taking(listed, i + 1, asked, was, requests, taken, ids)
  {
    hide Before;
    var id := listed[i];
    NotTwice(listed, i);
    assert listed[..i + 1] == listed[..i] + [id];
    OneOutOf(asked, was, listed[..i], id);
    hide LeftOf, OutOf;
    assert forall x :: x in listed[..i] + [id] <==> x in listed[..i] || x == id;
    forall j | 0 <= j < |ids| ensures Before(ids[j], id) {
      assert ids[j] in listed[..i];
      var k :| 0 <= k < i && listed[k] == ids[j];
      assert Before(listed[k], listed[i]);
    }
  }

  lemma AllTaken(listed: seq<Id>, all: map<Id, File>, withdrawn: set<Id>, was: map<Id, File>, requests: map<Id, File>,
                 taken: map<Id, File>, ids: seq<Id>)
    requires Lists(listed, all.Keys) && Taking(listed, |listed|, all - withdrawn, was, requests, taken, ids)
    ensures InOrder(ids) && Lists(ids, (all - withdrawn).Keys)
    ensures requests == map[] && taken == was + (all - withdrawn)
  {
    hide Before;
    assert listed[..|listed|] == listed;
    assert forall i :: 0 <= i < |ids| ==> ids[i] in ids;
  }

  lemma NotTwice(ids: seq<Id>, i: nat)
    requires InOrder(ids) && i < |ids|
    ensures ids[i] !in ids[..i]
  {
    if j :| 0 <= j < i && ids[j] == ids[i] { OrderIsStrict(ids[j], ids[i], ids[i]); }
  }

  lemma Placed(ids: seq<Id>, k: nat, id: Id, keys: set<Id>)
    requires k <= |ids| && Lists(ids, keys)
    ensures Lists(ids[..k] + [id] + ids[k..], keys + {id})
  {
    var more := ids[..k] + [id] + ids[k..];
    forall x | x in keys + {id} ensures x in more {
      if x != id {
        var i :| 0 <= i < |ids| && ids[i] == x;
        assert more[if i < k then i else i + 1] == x;
      } else {
        assert more[k] == id;
      }
    }
  }
}
