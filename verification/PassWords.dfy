/** One supervisor's pass in plain terms: what is due, how long things lie, and who goes first. */
module PassWords {
  import opened Wrappers
  import opened ControlDir
  import P = ControlProtocol
  import T = ReceiptText

  /** In time: asked no more than a minute before the pass. */
  predicate InTime(read: Option<Asked>, now: int) { read.Some? && now - read.value.at <= 60 }

  /** What is due to a request, by how it was read: what it is answered, and what happens meanwhile. */
  lemma DueIs(read: Option<Asked>, calls: nat, now: int, handle: Handler)
    ensures read.None? ==>
              Due(read, calls, now, handle)
                == Reply(P.Unknown, Some("a request this version of mafold can't read"), None, None, 0)
    ensures read.Some? && !InTime(read, now) ==>
              Due(read, calls, now, handle) == Reply(P.Expired, None, None, None, 0)
    ensures InTime(read, now) ==> Due(read, calls, now, handle) == handle(calls, read.value.action).reply
  {
  }

  lemma MeanwhileIs(d: Done, calls: nat, now: int, handle: Handler)
    ensures InTime(d.read, now) ==> During(d, calls, now, handle) == handle(calls, d.read.value.action)
    ensures !InTime(d.read, now) ==>
              var w := During(d, calls, now, handle); w.arrived == map[] && w.withdrawn == {} && w.collected == {}
  {
  }

  /** The calls of the handler before the n-th are those for the requests before it that were in time. */
  lemma {:induction false} CallsAre(done: seq<Done>, now: int)
    ensures Calls(done, now) == |set i | 0 <= i < |done| && InTime(done[i].read, now)|
  {
    if done != [] {
      var n := |done| - 1;
      CallsAre(done[..n], now);
      var before, all := set i | 0 <= i < n && InTime(done[..n][i].read, now),
                         set i | 0 <= i < |done| && InTime(done[i].read, now);
      assert all == if InTime(done[n].read, now) then before + {n} else before;
    }
  }

  /**
   What a sweep leaves: an answer that can be read stays for ten minutes, and a request taken and not
   answered for more than two is answered as interrupted and its file removed.
   */
  lemma SweepIs(taken: map<Id, File>, answers: map<Id, Option<Answer>>, now: int, clock: int, id: Id)
    ensures var stale := Leftovers(taken, f => Stale(f, clock));
      var left := KeptOf(Abandoned(answers, stale, now), now);
      && (id in stale <==> id in taken && clock - taken[id].modified > 120)
      && (id in answers ==> (id in left <==> answers[id].Some? && now - answers[id].value.at <= 600))
      && (id in answers && id in left ==> left[id] == answers[id])
      && (id !in answers ==> (id in left <==> id in stale))
      && (id !in answers && id in left ==>
            left[id] == Some(Answer(id, Reply(P.Interrupted, Some("the supervisor stopped before it finished"),
                                              None, None, 0), now)))
  {
  }

  /** What a recovery leaves: the same for every request taken, however long ago. */
  lemma RecoveryIs(taken: map<Id, File>, answers: map<Id, Option<Answer>>, now: int, id: Id)
    ensures var left := Abandoned(answers, taken.Keys, now);
      && (id in left <==> id in answers || id in taken)
      && (id in answers ==> left[id] == answers[id])
      && (id !in answers && id in taken ==>
            left[id] == Some(Answer(id, Reply(P.Interrupted, Some("the supervisor stopped before it finished"),
                                              None, None, 0), now)))
  {
  }

  /** An id that does not begin with a number counts as asked at 0. */
  lemma NoTimeIsZero(id: Id, i: nat)
    requires i < |id| && '-' !in id[..i + 1] && !('0' <= id[i] <= '9') && !(i == 0 && id[i] == '+')
    ensures Time(id) == 0
  {
    UpToThere(id, i);
    hide UpToDash;
    var s := UpToDash(id);
    assert s[i] == id[i];
    assert !T.AllDigits(s) && (i > 0 ==> !T.AllDigits(s[1..])) by {
      assert !T.IsDigit(s[i]);
      if i > 0 { assert s[1..][i - 1] == s[i]; }
    }
  }

  lemma {:induction false} UpToThere(s: string, i: nat)
    requires i < |s| && '-' !in s[..i + 1]
    ensures i < |UpToDash(s)| && UpToDash(s)[i] == s[i]
    decreases i
  {
    assert s[0] == s[..i + 1][0];
    if i > 0 {
      assert s[1..][..i] == s[..i + 1][1..];
      UpToThere(s[1..], i - 1);
    }
  }

  /** The two agree up to some place, where the first has ended or has the lesser character. */
  predicate Precedes(s: string, t: string) {
    exists k :: 0 <= k <= |s| && k < |t| && s[..k] == t[..k] && (k == |s| || s[k] < t[k])
  }

  lemma {:induction false} TextBeforeIs(s: string, t: string)
    ensures TextBefore(s, t) <==> Precedes(s, t)
    decreases s
  {
    if s != "" && t != "" {
      TextBeforeIs(s[1..], t[1..]);
      if k :| 0 <= k <= |s| && k < |t| && s[..k] == t[..k] && (k == |s| || s[k] < t[k]) {
        if k > 0 {
          assert s[0] == s[..k][0] == t[..k][0] == t[0];
          assert s[1..][..k - 1] == s[..k][1..] == t[..k][1..] == t[1..][..k - 1];
          assert Precedes(s[1..], t[1..]);
        }
      }
      if s[0] == t[0] && Precedes(s[1..], t[1..]) {
        var k :| && 0 <= k <= |s[1..]| && k < |t[1..]| && s[1..][..k] == t[1..][..k]
                 && (k == |s[1..]| || s[1..][k] < t[1..][k]);
        assert s[..k + 1] == [s[0]] + s[1..][..k] && t[..k + 1] == [t[0]] + t[1..][..k];
      }
      if s[0] < t[0] { assert s[..0] == t[..0]; }
    } else if s == "" && t != "" {
      assert s[..0] == t[..0];
    }
  }

  /** Of two requests the one of the earlier second goes first, and within a second the lesser id as text. */
  lemma GoesFirst(a: Id, b: Id)
    ensures Before(a, b) <==> Time(a) < Time(b) || (Time(a) == Time(b) && Precedes(a, b))
  {
    TextBeforeIs(a, b);
    hide Time, TextBefore, Precedes;
  }
}
