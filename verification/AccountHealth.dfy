/** What Mafold last said to this machine's reports, per account, and when to say it out loud. */
module AccountHealth {
  import opened Wrappers

  datatype Outcome = Accepted | SignedOut | Failed

  /** A refusal, by the fingerprint of the token it was about, and since when. */
  datatype Refused = Refused(at: int, token: string)

  datatype Health = Health(okAt: Option<int>, refused: Option<Refused>)

  const NOTHING := Health(None, None)

  datatype Change = Same | NowSignedOut | SignedBackIn

  /** What happened to an account: a report's answer, or being removed from the machine. */
  datatype Event = Reported(user: string, token: string, outcome: Outcome, at: int) | Forgotten(user: string)

  /** An event that says something about the user's login. */
  predicate Tells(e: Event, user: string) { e.user == user && !(e.Reported? && e.outcome.Failed?) }

  predicate Refuses(e: Event, token: string) { e.Reported? && e.outcome.SignedOut? && e.token == token }

  /** The record an event leaves. */
  function After(h: Health, e: Event): Health {
    if e.Forgotten? then NOTHING
    else
      match e.outcome
      case Failed => h
      case Accepted => Health(Some(e.at), None)
      case SignedOut =>
        if h.refused.Some? && h.refused.value.token == e.token then h
        else h.(refused := Some(Refused(e.at, e.token)))
  }

  function RecordOf(log: seq<Event>, user: string): Health {
    if log == [] then NOTHING
    else
      var e, h := log[|log| - 1], RecordOf(log[..|log| - 1], user);
      if e.user == user then After(h, e) else h
  }

  // ----- what the log says -----

  /** From the i-th event on, all that is said of the user is that this token was refused. */
  predicate RefusedFrom(log: seq<Event>, user: string, token: string, i: nat) {
    && i < |log| && Tells(log[i], user)
    && forall j :: i <= j < |log| && Tells(log[j], user) ==> Refuses(log[j], token)
  }

  /** And that began there. */
  predicate RunStarts(log: seq<Event>, user: string, token: string, i: nat) {
    && RefusedFrom(log, user, token, i)
    && forall k :: 0 <= k < i ==> !RefusedFrom(log, user, token, k)
  }

  /** The i-th event is the last thing said of the user. */
  predicate LastTold(log: seq<Event>, user: string, i: nat) {
    i < |log| && Tells(log[i], user) && forall j :: i < j < |log| ==> !Tells(log[j], user)
  }

  /** The last thing said of the user is that this token was refused. */
  ghost predicate RefusedNow(log: seq<Event>, user: string, token: string) {
    exists i: nat :: LastTold(log, user, i) && Refuses(log[i], token)
  }

  /** The record's refusal is that of the unbroken run of refusals that ends what is said of the user. */
  ghost predicate TellsRun(r: Option<Refused>, log: seq<Event>, user: string) {
    && (forall token, i: nat :: RunStarts(log, user, token, i) ==> r == Some(Refused(log[i].at, token)))
    && (r.Some? ==> exists i: nat :: RunStarts(log, user, r.value.token, i))
  }

  lemma {:induction false} RecordTellsTheRun(log: seq<Event>, user: string)
    ensures TellsRun(RecordOf(log, user).refused, log, user)
  {
    if log != [] {
      var n := |log| - 1;
      var before, e := log[..n], log[n];
      assert log == before + [e];
      RecordTellsTheRun(before, user);
      if !Tells(e, user) {
        forall token, i: nat ensures RunStarts(log, user, token, i) <==> RunStarts(before, user, token, i) {
          UntoldRun(log, before, e, user, token, i);
        }
      } else if e.Reported? && e.outcome.SignedOut? {
        RefusalRun(log, before, e, user);
      } else {
        forall token, i: nat ensures !RunStarts(log, user, token, i) {
          if RunStarts(log, user, token, i) { EndsInRefusal(log, user, token, i); }
        }
      }
    }
  }

  lemma EndsInRefusal(log: seq<Event>, user: string, token: string, i: nat)
    requires RefusedFrom(log, user, token, i) && Tells(log[|log| - 1], user)
    ensures Refuses(log[|log| - 1], token)
  {
  }

  lemma UntoldFrom(log: seq<Event>, before: seq<Event>, e: Event, user: string, token: string, i: nat)
    requires log == before + [e] && !Tells(e, user)
    ensures RefusedFrom(log, user, token, i) <==> RefusedFrom(before, user, token, i)
  {
    assert forall j :: 0 <= j < |before| ==> before[j] == log[j];
  }

  lemma UntoldRun(log: seq<Event>, before: seq<Event>, e: Event, user: string, token: string, i: nat)
    requires log == before + [e] && !Tells(e, user)
    ensures RunStarts(log, user, token, i) <==> RunStarts(before, user, token, i)
  {
    hide RefusedFrom, Tells;
    forall k: nat ensures RefusedFrom(log, user, token, k) <==> RefusedFrom(before, user, token, k) {
      UntoldFrom(log, before, e, user, token, k);
    }
  }

  /** A refusal lengthens the run of its token, and ends any other. */
  lemma RefusalFrom(log: seq<Event>, before: seq<Event>, e: Event, user: string, token: string, i: nat)
    requires log == before + [e] && Tells(e, user) && e.Reported? && e.outcome.SignedOut?
    ensures RefusedFrom(log, user, token, i) <==>
              token == e.token && (i == |before| || RefusedFrom(before, user, token, i))
  {
    assert log[|before|] == e;
    assert forall j :: 0 <= j < |before| ==> before[j] == log[j];
  }

  lemma RefusalRun(log: seq<Event>, before: seq<Event>, e: Event, user: string)
    requires log == before + [e] && Tells(e, user) && e.Reported? && e.outcome.SignedOut?
    requires TellsRun(RecordOf(before, user).refused, before, user)
    ensures TellsRun(RecordOf(log, user).refused, log, user)
  {
    hide RefusedFrom, Tells;
    var n := |before|;
    assert log[..|log| - 1] == before;
    var was := RecordOf(before, user).refused;
    forall token, k: nat ensures RefusedFrom(log, user, token, k) <==>
      token == e.token && (k == n || RefusedFrom(before, user, token, k))
    {
      RefusalFrom(log, before, e, user, token, k);
    }
    forall k: nat | RefusedFrom(before, user, e.token, k) ensures was.Some? && was.value.token == e.token && k < n {
      FirstOfRun(before, user, e.token, k);
    }
    assert e.user == user by { TellsOfUser(e, user); }
    if was.Some? && was.value.token == e.token {
      var i: nat :| RunStarts(before, user, e.token, i);
      FirstOfRun(before, user, e.token, i);
      assert RunStarts(log, user, e.token, i);
      assert before[i] == log[i];
      forall token, j: nat | RunStarts(log, user, token, j) ensures token == e.token && j == i {
        assert RefusedFrom(log, user, token, j);
        assert RefusedFrom(log, user, e.token, i);
      }
    } else {
      assert RunStarts(log, user, e.token, n);
    }
  }

  lemma TellsOfUser(e: Event, user: string)
    requires Tells(e, user)
    ensures e.user == user
  {
  }

  /** Every run has a start. */
  lemma {:induction false} FirstOfRun(log: seq<Event>, user: string, token: string, i: nat)
    requires RefusedFrom(log, user, token, i)
    ensures i < |log| && exists k: nat :: k <= i && RunStarts(log, user, token, k)
    decreases i
  {
    if !RunStarts(log, user, token, i) {
      var k: nat :| k < i && RefusedFrom(log, user, token, k);
      FirstOfRun(log, user, token, k);
    }
  }

  /**
   A refusal shows for a token exactly when the last thing said of the user was that it was refused;
   the time shown is that of the first refusal in that unbroken run.
   */
  lemma RefusalShowsIff(log: seq<Event>, user: string, token: string)
    ensures Of(RecordOf(log, user), token).refused.Some? <==> RefusedNow(log, user, token)
    ensures forall i: nat :: RunStarts(log, user, token, i) ==>
              Of(RecordOf(log, user), token).refused == Some(Refused(log[i].at, token))
    ensures RefusedNow(log, user, token) ==> exists i: nat :: RunStarts(log, user, token, i)
  {
    RecordTellsTheRun(log, user);
    var r := RecordOf(log, user).refused;
    if r.Some? && r.value.token == token {
      var i: nat :| RunStarts(log, user, token, i);
      LastOf(log, user, i);
      var k: nat :| LastTold(log, user, k) && i <= k;
      assert Refuses(log[k], token);
    }
    if RefusedNow(log, user, token) {
      var k: nat :| LastTold(log, user, k) && Refuses(log[k], token);
      assert RefusedFrom(log, user, token, k);
      FirstOfRun(log, user, token, k);
    }
  }

  lemma {:induction false} LastOf(log: seq<Event>, user: string, i: nat)
    requires i < |log| && Tells(log[i], user)
    ensures exists k: nat :: i <= k && LastTold(log, user, k)
    decreases |log| - i
  {
    if !LastTold(log, user, i) {
      var j: nat :| i < j < |log| && Tells(log[j], user);
      LastOf(log, user, j);
    }
  }

  /** What is told of a record to one who holds this token. */
  function Of(h: Health, token: string): Health {
    if h.refused.Some? && h.refused.value.token != token then h.(refused := None) else h
  }

  /** The user's login was last taken by the i-th report, and not forgotten since. */
  predicate LastTaken(log: seq<Event>, user: string, i: nat) {
    && i < |log| && log[i].user == user && log[i].Reported? && log[i].outcome.Accepted?
    && forall j :: i < j < |log| && log[j].user == user ==> log[j].Reported? && !log[j].outcome.Accepted?
  }

  /** The time shown as last taken is that of the last acceptance, and of nothing else. */
  lemma {:induction false} TakenAtTheLastAcceptance(log: seq<Event>, user: string)
    ensures forall i: nat :: LastTaken(log, user, i) ==> RecordOf(log, user).okAt == Some(log[i].at)
    ensures RecordOf(log, user).okAt.Some? ==> exists i: nat :: LastTaken(log, user, i)
  {
    if log != [] {
      var n := |log| - 1;
      var before, e := log[..n], log[n];
      TakenAtTheLastAcceptance(before, user);
      assert forall j :: 0 <= j < n ==> before[j] == log[j];
      forall i: nat | i < n ensures LastTaken(log, user, i) <==>
        LastTaken(before, user, i) && (e.user == user ==> e.Reported? && !e.outcome.Accepted?)
      {
      }
      if RecordOf(before, user).okAt.Some? {
        var i: nat :| LastTaken(before, user, i);
        assert i < n;
      }
      assert e.user == user && e.Reported? && e.outcome.Accepted? ==> LastTaken(log, user, n);
    }
  }

  // ----- the file -----

  class HealthFile {
    var accounts: map<string, Health>
    ghost var log: seq<Event>

    ghost predicate Valid()
      reads this
    {
      forall user :: (if user in accounts then accounts[user] else NOTHING) == RecordOf(log, user)
    }

    constructor ()
      ensures Valid() && log == []
    {
      accounts, log := map[], [];
    }

    /** Says so once when the login turns out signed out, and once when it is taken again. */
    method Record(user: string, token: string, outcome: Outcome, now: int) returns (change: Change)
      requires Valid()
      modifies this
      ensures Valid() && log == old(log) + [Reported(user, token, outcome, now)]
      ensures change == NowSignedOut <==> outcome.SignedOut? && !RefusedNow(old(log), user, token)
      ensures change == SignedBackIn <==> outcome.Accepted? && exists t :: RefusedNow(old(log), user, t)
    {
      hide RefusedNow;
      ghost var e := Reported(user, token, outcome, now);
      OnlyThatUser(log, e);
      RefusalKnown(log, user);
      ghost var was := RecordOf(log, user).refused;
      assert was.Some? ==> RefusedNow(log, user, was.value.token);
      log := log + [e];
      change := Same;
      if outcome.Failed? { return; }
      var h := if user in accounts then accounts[user] else NOTHING;
      if outcome.Accepted? {
        change := if h.refused.Some? then SignedBackIn else Same;
        h := Health(Some(now), None);
      } else if !(h.refused.Some? && h.refused.value.token == token) {
        h := h.(refused := Some(Refused(now, token)));
        change := NowSignedOut;
      }
      accounts := accounts[user := h];
    }

    method Told(user: string, token: string) returns (h: Health)
      requires Valid()
      ensures h == Of(RecordOf(log, user), token)
      ensures forall i: nat :: LastTaken(log, user, i) ==> h.okAt == Some(log[i].at)
      ensures h.okAt.Some? ==> exists i: nat :: LastTaken(log, user, i)
      ensures h.refused.Some? <==> RefusedNow(log, user, token)
      ensures forall i: nat :: RunStarts(log, user, token, i) ==> h.refused == Some(Refused(log[i].at, token))
    {
      TakenAtTheLastAcceptance(log, user);
      RefusalShowsIff(log, user, token);
      hide LastTaken, RefusedNow, RunStarts, RecordOf;
      h := if user in accounts then accounts[user] else NOTHING;
      if h.refused.Some? && h.refused.value.token != token { h := h.(refused := None); }
    }

    method Forget(user: string)
      requires Valid()
      modifies this
      ensures Valid() && log == old(log) + [Forgotten(user)]
    {
      OnlyThatUser(log, Forgotten(user));
      log := log + [Forgotten(user)];
      accounts := accounts - {user};
    }
  }

  /** What happens to one account has no part in another's record. */
  lemma OnlyThatUser(log: seq<Event>, e: Event)
    ensures forall user :: RecordOf(log + [e], user) ==
              if user == e.user then After(RecordOf(log, user), e) else RecordOf(log, user)
  {
    assert (log + [e])[..|log|] == log;
  }

  lemma RefusalKnown(log: seq<Event>, user: string)
    ensures var r := RecordOf(log, user).refused;
      forall t :: RefusedNow(log, user, t) <==> r.Some? && r.value.token == t
  {
    forall t ensures RefusedNow(log, user, t) <==> Of(RecordOf(log, user), t).refused.Some? {
      RefusalShowsIff(log, user, t);
    }
  }
}
