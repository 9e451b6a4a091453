/** What is handed back for a Keychain item while the Keychain is silent or has said no. */
module Keychain {
  import opened Wrappers

  const KEYCHAIN_BACKOFF := 60
  const KEYCHAIN_STAND_IN := 600

  /** A failure to read: the Keychain did not answer, or it answered with a refusal. */
  datatype Unread = Silent(why: string) | Said(why: string)

  /** How asking went: what the item holds, nothing when it is not there, or a failure. */
  datatype Got = Item(item: Option<string>) | Failure(unread: Unread)

  /** What is handed back. */
  datatype Answer = Ok(item: Option<string>) | Err(why: string)

  /** The Keychain was asked about a service. */
  datatype Ask = Ask(service: string, at: int, got: Got)

  datatype Failed = Failed(at: int, unread: Unread)
  datatype Told = Told(at: int, item: Option<string>)

  function Since(at: int, now: int): int { if now >= at then now - at else 0 }

  // ----- what was asked so far, and what follows from it -----

  /** The last time the service was asked about. */
  function LastAsk(log: seq<Ask>, service: string): (r: Option<nat>)
    ensures r.Some? ==> r.value < |log| && log[r.value].service == service
    ensures forall i :: 0 <= i < |log| && log[i].service == service ==> r.Some? && i <= r.value
  {
    if log == [] then None
    else if log[|log| - 1].service == service then Some(|log| - 1)
    else LastAsk(log[..|log| - 1], service)
  }

  /** The failure the service's last ask ended in. */
  function FailureOf(log: seq<Ask>, service: string): Option<Failed> {
    var i := LastAsk(log, service);
    if i.Some? && log[i.value].got.Failure? then Some(Failed(log[i.value].at, log[i.value].got.unread)) else None
  }

  /** The service's last real answer, unless it was refused since. */
  function ToldOf(log: seq<Ask>, service: string): Option<Told> {
    if log == [] then None
    else
      var last, before := log[|log| - 1], ToldOf(log[..|log| - 1], service);
      if last.service != service then before
      else
        match last.got
        case Item(item) => Some(Told(last.at, item))
        case Failure(Said(_)) => None
        case Failure(Silent(_)) => before
  }

  /** The i-th ask is the service's last real answer, and it was not refused since. */
  predicate StandsFor(log: seq<Ask>, service: string, i: nat) {
    && i < |log| && log[i].service == service && log[i].got.Item?
    && forall j :: i < j < |log| && log[j].service == service ==> log[j].got.Failure? && log[j].got.unread.Silent?
  }

  lemma {:induction false} ToldIsTheLastAnswer(log: seq<Ask>, service: string)
    ensures ToldOf(log, service).Some? <==> exists i: nat :: StandsFor(log, service, i)
    ensures forall i: nat :: StandsFor(log, service, i) ==>
                               ToldOf(log, service) == Some(Told(log[i].at, log[i].got.item))
  {
    if log != [] {
      var n := |log| - 1;
      var before := log[..n];
      ToldIsTheLastAnswer(before, service);
      forall i: nat | i < n ensures StandsFor(log, service, i) <==>
        && StandsFor(before, service, i)
        && (log[n].service == service ==> log[n].got.Failure? && log[n].got.unread.Silent?)
      {
        if StandsFor(log, service, i) { assert forall j :: i < j < n ==> before[j] == log[j]; }
      }
      if ToldOf(before, service).Some? {
        var i: nat :| StandsFor(before, service, i);
        assert i < n;
      }
      assert log[n].service == service && log[n].got.Item? ==> StandsFor(log, service, n);
    }
  }

  /** What a failure is handed back as. */
  function AnswerFor(told: Option<Told>, now: int, unread: Unread): Answer {
    if unread.Silent? && told.Some? && Since(told.value.at, now) < KEYCHAIN_STAND_IN then Ok(told.value.item)
    else Err(unread.why)
  }

  /** What is handed back without asking, if anything. */
  function Replay(log: seq<Ask>, service: string, now: int): Option<Answer> {
    var f := FailureOf(log, service);
    if f.Some? && Since(f.value.at, now) < KEYCHAIN_BACKOFF
    then Some(AnswerFor(ToldOf(log, service), now, f.value.unread))
    else None
  }

  /** Time does not go back. */
  predicate InTime(log: seq<Ask>, now: int) {
    && (forall i, j :: 0 <= i <= j < |log| ==> log[i].at <= log[j].at)
    && (forall i :: 0 <= i < |log| ==> log[i].at <= now)
  }

  /**
   An item handed back without an answer to show for it is what the service last really answered,
   less than the stand-in time ago, with no refusal since; and such an answer is always stood by
   while the Keychain is silent.
   */
  lemma StandInIsTheLastAnswer(log: seq<Ask>, service: string, now: int, unread: Unread, item: Option<string>)
    requires InTime(log, now)
    ensures AnswerFor(ToldOf(log, service), now, unread) == Ok(item) <==>
      unread.Silent? && exists i: nat ::
        StandsFor(log, service, i) && log[i].got.item == item && now - log[i].at < KEYCHAIN_STAND_IN
  {
    ToldIsTheLastAnswer(log, service);
    if ToldOf(log, service).Some? {
      var i: nat :| StandsFor(log, service, i);
      assert Since(log[i].at, now) == now - log[i].at;
    }
  }

  /**
   It is not asked again exactly within the backoff of a failure that no answer followed; after
   a real answer nothing is replayed.
   */
  lemma AskedUnlessItJustFailed(log: seq<Ask>, service: string, now: int)
    requires InTime(log, now)
    ensures Replay(log, service, now).Some? <==>
      exists i ::
        && 0 <= i < |log| && log[i].service == service && log[i].got.Failure?
        && now - log[i].at < KEYCHAIN_BACKOFF
                  && forall j :: i < j < |log| ==> log[j].service != service
  {
    var last := LastAsk(log, service);
    if last.Some? {
      assert forall j :: last.value < j < |log| ==> log[j].service != service;
      if i :| 0 <= i < |log| && log[i].service == service && forall j :: i < j < |log| ==> log[j].service != service {
        assert i == last.value;
      }
    }
  }

  /** The service's last ask, the i-th, failed less than a minute ago. */
  predicate FailedLately(log: seq<Ask>, service: string, now: int, i: int) {
    && 0 <= i < |log| && log[i].service == service && log[i].got.Failure? && now - log[i].at < 60
    && forall j :: i < j < |log| ==> log[j].service != service
  }

  /** What the service last really answered, less than ten minutes ago, with no refusal since. */
  ghost predicate Recalled(log: seq<Ask>, service: string, now: int, item: Option<string>) {
    exists i: nat ::
      && i < |log| && log[i].service == service && log[i].got == Item(item) && now - log[i].at < 600
      && forall j :: i < j < |log| && log[j].service == service ==> log[j].got.Failure? && log[j].got.unread.Silent?
  }

  /** How a failure is handed back: as what is recalled while the Keychain is silent, and else as itself. */
  ghost predicate HandedBack(log: seq<Ask>, service: string, now: int, unread: Unread, a: Answer) {
    match a
    case Ok(item) => unread.Silent? && Recalled(log, service, now, item)
    case Err(why) => why == unread.why && (unread.Silent? ==> forall item :: !Recalled(log, service, now, item))
  }

  lemma AnswerIsHandedBack(log: seq<Ask>, service: string, now: int, unread: Unread, a: Answer)
    requires InTime(log, now)
    ensures HandedBack(log, service, now, unread, a) <==> a == AnswerFor(ToldOf(log, service), now, unread)
  {
    hide AnswerFor, ToldOf, InTime;
    var given := AnswerFor(ToldOf(log, service), now, unread);
    forall item ensures given == Ok(item) <==> unread.Silent? && Recalled(log, service, now, item) {
      StandInIsTheLastAnswer(log, service, now, unread, item);
      if i: nat :| StandsFor(log, service, i) && log[i].got.item == item && now - log[i].at < KEYCHAIN_STAND_IN {
        assert log[i].got == Item(item);
      }
      if Recalled(log, service, now, item) {
        var i: nat :|
          && i < |log| && log[i].service == service && log[i].got == Item(item) && now - log[i].at < 600
          && forall j :: i < j < |log| && log[j].service == service ==>
               log[j].got.Failure? && log[j].got.unread.Silent?;
        assert StandsFor(log, service, i);
      }
    }
    ErrIsTheFailure(ToldOf(log, service), now, unread);
    hide Recalled;
  }

  lemma ErrIsTheFailure(told: Option<Told>, now: int, unread: Unread)
    ensures AnswerFor(told, now, unread).Err? ==> AnswerFor(told, now, unread).why == unread.why
  {
  }

  /** All of a replay: there is one just when the last ask failed lately, and it is that failure handed back. */
  lemma ReplayIsTheFailure(log: seq<Ask>, service: string, now: int)
    requires InTime(log, now)
    ensures Replay(log, service, now).Some? <==> exists i :: FailedLately(log, service, now, i)
    ensures var r := Replay(log, service, now);
      forall i :: FailedLately(log, service, now, i) ==>
        r.Some? && HandedBack(log, service, now, log[i].got.unread, r.value)
  {
    hide ToldOf, AnswerFor, HandedBack;
    AskedUnlessItJustFailed(log, service, now);
    assert forall i :: FailedLately(log, service, now, i) ==> LastAsk(log, service) == Some(i);
    var last := LastAsk(log, service);
    if last.Some? {
      assert FailureOf(log, service).Some? && now - log[last.value].at < 60 ==>
               FailedLately(log, service, now, last.value);
    }
    if i :| FailedLately(log, service, now, i) {
      AnswerIsHandedBack(log, service, now, log[i].got.unread, Replay(log, service, now).value);
    }
  }

  /** What another service is asked has no part in it. */
  lemma OthersDoNotMatter(log: seq<Ask>, a: Ask, service: string, now: int)
    requires a.service != service
    ensures Replay(log + [a], service, now) == Replay(log, service, now)
    ensures ToldOf(log + [a], service) == ToldOf(log, service)
  {
    assert (log + [a])[..|log|] == log;
  }

  // ----- the memory -----

  /** What the two maps hold for a service is what follows from the asks. */
  ghost predicate Agree(failed: map<string, Failed>, said: map<string, Told>, log: seq<Ask>, s: string) {
    && (if s in failed then Some(failed[s]) else None) == FailureOf(log, s)
    && (if s in said then Some(said[s]) else None) == ToldOf(log, s)
  }

  function FailedAfter(failed: map<string, Failed>, a: Ask): map<string, Failed> {
    if a.got.Item? then failed - {a.service} else failed[a.service := Failed(a.at, a.got.unread)]
  }

  function SaidAfter(said: map<string, Told>, a: Ask): map<string, Told> {
    if a.got.Item? then said[a.service := Told(a.at, a.got.item)]
    else if a.got.unread.Said? then said - {a.service}
    else said
  }

  lemma StillAgree(failed: map<string, Failed>, said: map<string, Told>, log: seq<Ask>, a: Ask, s: string)
    requires Agree(failed, said, log, s)
    ensures Agree(FailedAfter(failed, a), SaidAfter(said, a), log + [a], s)
  {
    hide FailureOf, ToldOf;
    OneMoreAsk(log, a, s);
  }

  class Unanswered {
    var failed: map<string, Failed>
    var said: map<string, Told>
    ghost var log: seq<Ask>

    ghost predicate Valid()
      reads this
    {
      forall s :: Agree(failed, said, log, s)
    }

    constructor ()
      ensures Valid() && log == []
    {
      failed, said, log := map[], map[], [];
    }

    method Recent(service: string, now: int) returns (r: Option<Answer>)
      requires Valid()
      ensures r == Replay(log, service, now)
    {
      hide FailureOf, ToldOf;
      assert Agree(failed, said, log, service);
      if service !in failed { return None; }
      var f := failed[service];
      if Since(f.at, now) >= KEYCHAIN_BACKOFF { return None; }
      var a := Back(service, now, f.unread);
      r := Some(a);
    }

    method Record(service: string, now: int, got: Got) returns (a: Answer)
      requires Valid()
      modifies this
      ensures Valid() && log == old(log) + [Ask(service, now, got)]
      ensures a == if got.Item? then Ok(got.item) else AnswerFor(ToldOf(log, service), now, got.unread)
    {
      hide FailureOf, ToldOf, LastAsk, AnswerFor, Since;
      ghost var ask := Ask(service, now, got);
      forall s ensures Agree(FailedAfter(failed, ask), SaidAfter(said, ask), log + [ask], s) {
        assert Agree(failed, said, log, s);
        StillAgree(failed, said, log, ask, s);
      }
      hide Agree;
      log := log + [ask];
      match got {
        case Item(item) =>
          failed := failed - {service};
          said := said[service := Told(now, item)];
          assert failed == FailedAfter(old(failed), ask) && said == SaidAfter(old(said), ask);
          a := Ok(item);
        case Failure(unread) =>
          if unread.Said? { said := said - {service}; }
          failed := failed[service := Failed(now, unread)];
          assert failed == FailedAfter(old(failed), ask) && said == SaidAfter(old(said), ask);
          a := Back(service, now, unread);
      }
    }

    method Back(service: string, now: int, unread: Unread) returns (a: Answer)
      requires Valid()
      ensures a == AnswerFor(ToldOf(log, service), now, unread)
    {
      hide FailureOf, ToldOf;
      assert Agree(failed, said, log, service);
      if unread.Silent? && service in said && Since(said[service].at, now) < KEYCHAIN_STAND_IN {
        return Ok(said[service].item);
      }
      a := Err(unread.why);
    }

    /** Reads an item: `got` is what the Keychain would answer if asked, by which time it is `after`. */
    method Password(service: string, now: int, got: Got, after: int) returns (a: Answer)
      requires Valid()
      modifies this
      ensures Valid()
      ensures var replay := Replay(old(log), service, now);
        if replay.Some? then log == old(log) && a == replay.value
        else
          && log == old(log) + [Ask(service, after, got)]
          && a == if got.Item? then Ok(got.item) else AnswerFor(ToldOf(log, service), after, got.unread)
      ensures InTime(old(log), now) ==>
        (forall i :: FailedLately(old(log), service, now, i) ==>
           log == old(log) && HandedBack(log, service, now, log[i].got.unread, a))
        && ((forall i :: !FailedLately(old(log), service, now, i)) && now <= after ==>
              && log == old(log) + [Ask(service, after, got)]
              && (if got.Item? then a == Ok(got.item) else HandedBack(log, service, after, got.unread, a)))
    {
      hide Replay, FailedLately, HandedBack, AnswerFor, ToldOf, Agree;
      if InTime(log, now) { ReplayIsTheFailure(log, service, now); }
      var r := Recent(service, now);
      if r.Some? { return r.value; }
      a := Record(service, after, got);
      if InTime(old(log), now) && now <= after && got.Failure? {
        AnswerIsHandedBack(log, service, after, got.unread, a);
      }
    }
  }

  function FailedBy(a: Ask): Option<Failed> {
    if a.got.Failure? then Some(Failed(a.at, a.got.unread)) else None
  }

  function ToldAfter(a: Ask, before: Option<Told>): Option<Told> {
    match a.got
    case Item(item) => Some(Told(a.at, item))
    case Failure(Said(_)) => None
    case Failure(Silent(_)) => before
  }

  lemma OneMoreAsk(log: seq<Ask>, a: Ask, s: string)
    ensures FailureOf(log + [a], s) == if s == a.service then FailedBy(a) else FailureOf(log, s)
    ensures ToldOf(log + [a], s) == if s == a.service then ToldAfter(a, ToldOf(log, s)) else ToldOf(log, s)
  {
    assert (log + [a])[..|log|] == log;
  }
}
