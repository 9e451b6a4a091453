/**
 The watchdog's last word: whether it may still leave its receipt, when a receipt that is
 there can change, and what becomes of a command that ran over.
 */
module LateReceipt {
  import opened Wrappers
  import opened ExitReceipt

  /** The watchdog's receipt may still come: it has not looked for its mark, or will find it, or its mv is at work. */
  predicate MayStillWrite(s: State) {
    || s.dogMover || s.dog.Asleep? || s.dog.Marking? || s.dog.Filing?
    || ((s.dog.Terming? || s.dog.Killing? || s.dog.Checking?) && s.mark)
  }

  // ----- when it may not -----

  /** The shell is past its receipt and the watchdog will not leave one. */
  predicate Hushed(s: State) { !MayStillWrite(s) && PastPlacing(s.shell) && !s.mover }

  lemma ShellStaysHushed(s: State, a: ShellStep)
    requires Hushed(s) && CanShell(s, a)
    ensures Hushed(DoShell(s, a)) && DoShell(s, a).receipt == s.receipt
  {
    match a {
      case StartsRm =>
      case Leaves =>
      case _ =>
    }
  }

  lemma DogStaysHushed(s: State, a: DogStep)
    requires DogOk(s) && Hushed(s) && CanDog(s, a)
    ensures Hushed(DoDog(s, a)) && DoDog(s, a).receipt == s.receipt
  {
    match a {
      case Terms =>
      case Kills =>
      case Checks =>
      case _ =>
    }
  }

  lemma HelperStaysHushed(s: State, a: HelperStep)
    requires Hushed(s) && CanHelper(s, a)
    ensures Hushed(DoHelper(s, a)) && DoHelper(s, a).receipt == s.receipt
  {
    match a {
      case Clears =>
      case _ =>
    }
  }

  lemma OutsideStaysHushed(s: State, a: OutsideStep, start: nat)
    requires Hushed(s) && CanOutside(s, a, start)
    ensures Hushed(DoOutside(s, a)) && DoOutside(s, a).receipt == s.receipt
  {
    match a {
      case TermGroup(_) =>
      case KillGroup =>
      case EndDog =>
      case EndDogMv =>
      case _ =>
    }
  }

  lemma StepStaysHushed(s: State, a: Act, start: nat)
    requires Inv(s) && Hushed(s) && Can(s, a, start)
    ensures Hushed(Do(s, a)) && Do(s, a).receipt == s.receipt
  {
    hide Hushed, DogOk, ShellOk, HelpersOk, GroupOk, TextOk, DoShell, DoDog, DoHelper, DoOutside;
    match a {
      case Shell(sh) => ShellStaysHushed(s, sh);
      case Dog(d) => DogStaysHushed(s, d);
      case Helper(h) => HelperStaysHushed(s, h);
      case Outside(o) => OutsideStaysHushed(s, o, start);
    }
  }

  /** Then no receipt comes, and one that is there stays, however the run goes on. */
  lemma {:induction false} NobodyLeftToWrite(s: State, acts: seq<Act>, start: nat)
    requires Inv(s) && Hushed(s) && Allowed(s, acts, start)
    ensures After(s, acts).receipt == s.receipt
    decreases acts
  {
    hide Inv, Hushed, Can, Do;
    if acts != [] {
      StepKeepsInv(s, acts[0], start);
      StepStaysHushed(s, acts[0], start);
      NobodyLeftToWrite(Do(s, acts[0]), acts[1..], start);
    }
  }

  // ----- when it may -----

  /** What the watchdog has left to do before its receipt, nobody interfering. */
  function DogRemaining(s: State): nat {
    if s.dogMover then 1
    else
      match s.dog
      case Asleep => (if GroupAnswers(s) then 7 else if s.stranger.Nobody? then 8 else 9)
      case Marking => 6 case Terming => 5 case Killing => 4 case Checking => 3 case Filing => 2 case _ => 0
  }

  /** A watchdog that slept through its task's death wakes to a new group under the same id. */
  function NextOfDog(s: State, start: nat): Act {
    if s.dogMover then Helper(DogPlaces)
    else
      match s.dog
      case Asleep =>
        if GroupAnswers(s) then Dog(Wakes)
        else if s.stranger.Nobody? then Outside(PidReused(start + 1, true))
        else Outside(StrangerEnds)
      case Marking => Dog(Marks) case Terming => Dog(Terms) case Killing => Dog(Kills)
      case Checking => Dog(Checks) case _ => Dog(Files)
  }

  lemma SleeperIsNearer(s: State, start: nat)
    requires s.dog.Asleep? && !s.dogMover && (s.stranger.Stranger? ==> !OwnGroup(s))
    ensures var a := NextOfDog(s, start);
      Can(s, a, start) && MayStillWrite(Do(s, a)) && DogRemaining(Do(s, a)) < DogRemaining(s)
  {
    if GroupAnswers(s) {
      hide OwnGroup;
    } else if s.stranger.Nobody? {
    } else {
    }
  }

  lemma DogIsNearer(s: State, a: DogStep, start: nat)
    requires MayStillWrite(s) && !s.dogMover && !s.dog.Asleep? && NextOfDog(s, start) == Dog(a)
    ensures CanDog(s, a) && MayStillWrite(DoDog(s, a)) && DogRemaining(DoDog(s, a)) < DogRemaining(s)
  {
    match a {
      case Marks =>
      case Terms =>
      case Kills =>
      case Checks =>
      case _ =>
    }
  }

  lemma NearerTheDogs(s: State, start: nat)
    requires Inv(s) && MayStillWrite(s) && !s.dogMover
    ensures var a := NextOfDog(s, start);
      Can(s, a, start) && MayStillWrite(Do(s, a)) && DogRemaining(Do(s, a)) < DogRemaining(s)
  {
    if s.dog.Asleep? {
      hide DogOk, ShellOk, HelpersOk, TextOk, MayStillWrite, DogRemaining, OwnGroup, GroupAnswers;
      SleeperIsNearer(s, start);
    } else {
      hide Inv, DogRemaining, DoDog;
      DogIsNearer(s, NextOfDog(s, start).d, start);
    }
  }

  /** Some way for the run to go on ends in the watchdog's receipt. */
  lemma {:induction false} TheDogMayWrite(s: State, start: nat) returns (acts: seq<Act>)
    requires Inv(s) && MayStillWrite(s)
    ensures Allowed(s, acts, start) && After(s, acts).receipt == Some(TIMED_OUT)
    decreases DogRemaining(s)
  {
    hide Inv, Can, Do, MayStillWrite, DogRemaining, NextOfDog;
    if s.dogMover {
      acts := [Helper(DogPlaces)];
      TheDogsMvPlaces(s, start);
    } else {
      var a := NextOfDog(s, start);
      NearerTheDogs(s, start);
      StepKeepsInv(s, a, start);
      var rest := TheDogMayWrite(Do(s, a), start);
      acts := [a] + rest;
      PutFirst(s, a, rest, start);
    }
  }

  lemma TheDogsMvPlaces(s: State, start: nat)
    requires s.dogMover
    ensures Allowed(s, [Helper(DogPlaces)], start) && After(s, [Helper(DogPlaces)]).receipt == Some(TIMED_OUT)
  {
    var a := Helper(DogPlaces);
    assert [a][1..] == [];
    assert After(s, [a]) == After(Do(s, a), []);
  }

  // ----- whether a receipt changes -----

  lemma {:induction false} TimedOutStays(s: State, acts: seq<Act>, start: nat)
    requires Inv(s) && Allowed(s, acts, start) && s.receipt == Some(TIMED_OUT)
    ensures After(s, acts).receipt == Some(TIMED_OUT)
    decreases acts
  {
    hide Inv, Can, Do;
    if acts != [] {
      StepKeepsInv(s, acts[0], start);
      TimedOutIsKept(s, acts[0], start);
      TimedOutStays(Do(s, acts[0]), acts[1..], start);
    }
  }

  lemma TimedOutIsKept(s: State, a: Act, start: nat)
    requires Inv(s) && Can(s, a, start) && s.receipt == Some(TIMED_OUT)
    ensures Do(s, a).receipt == Some(TIMED_OUT)
  {
    PastItsReceipt(s);
    hide Inv, CanShell, CanDog, CanHelper, CanOutside, DoShell, DoDog, DoHelper, DoOutside;
    match a {
      case Shell(sh) => ShellKeepsText(s, sh);
      case Dog(d) => DogKeepsText(s, d);
      case Helper(h) => HelperKeepsTimedOut(s, h);
      case Outside(o) => OutsideKeepsText(s, o, start);
    }
  }

  lemma HelperKeepsTimedOut(s: State, a: HelperStep)
    requires CanHelper(s, a) && !s.mover && s.receipt == Some(TIMED_OUT)
    ensures DoHelper(s, a).receipt == Some(TIMED_OUT)
  {
    match a {
      case DogPlaces =>
      case _ =>
    }
  }

  /**
   A receipt that is there can come to change exactly when it is not the watchdog's and the watchdog's
   may still come.
   */
  lemma ReceiptChangesIff(capped: bool, acts: seq<Act>, start: nat)
    requires Allowed(Fresh(capped), acts, start) && After(Fresh(capped), acts).receipt.Some?
    ensures var s := After(Fresh(capped), acts);
      (exists more :: Allowed(s, more, start) && After(s, more).receipt != s.receipt)
        <==> s.receipt.value != TIMED_OUT && MayStillWrite(s)
  {
    var s := After(Fresh(capped), acts);
    FromTheStart(capped, acts, start);
    PastItsReceipt(s);
    hide Inv, Can, Do, MayStillWrite;
    if s.receipt.value == TIMED_OUT {
      forall more | Allowed(s, more, start) ensures After(s, more).receipt == s.receipt {
        TimedOutStays(s, more, start);
      }
    } else if MayStillWrite(s) {
      var more := TheDogMayWrite(s, start);
    } else {
      forall more | Allowed(s, more, start) ensures After(s, more).receipt == s.receipt {
        NobodyLeftToWrite(s, more, start);
      }
    }
  }

  lemma PastItsReceipt(s: State)
    requires Inv(s) && s.receipt.Some?
    ensures PastPlacing(s.shell) && !s.mover
  {
    hide DogOk, ShellOk, GroupOk, TextOk;
  }

  /**
   Once a receipt exists its content never changes, whatever happens afterwards, unless a fatal signal
   came between the watchdog's start and the note the shell makes of it.
   */
  lemma ReceiptNeverChanges(capped: bool, acts: seq<Act>, more: seq<Act>, start: nat)
    requires Allowed(Fresh(capped), acts + more, start) && After(Fresh(capped), acts).receipt.Some?
    requires !(capped && UnnamedIn(acts, false))
    ensures After(Fresh(capped), acts + more).receipt == After(Fresh(capped), acts).receipt
  {
    Splits(Fresh(capped), acts, more, start);
    var s := After(Fresh(capped), acts);
    ReceiptChangesIff(capped, acts, start);
    FromTheStart(capped, acts, start);
    NamedDogIsDone(s);
  }

  lemma NamedDogIsDone(s: State)
    requires Inv(s) && s.receipt.Some? && !s.unnamed
    ensures s.receipt.value == TIMED_OUT || !MayStillWrite(s)
  {
    hide ShellOk, HelpersOk, GroupOk;
  }

  /** One that did come there leaves a watchdog nobody takes down, and the receipt does change. */
  lemma ReceiptMayChange(code: Int64, start: nat) returns (acts: seq<Act>, more: seq<Act>)
    ensures Allowed(Fresh(true), acts + more, start)
    ensures After(Fresh(true), acts).receipt == Some(Receipt(code, false))
    ensures After(Fresh(true), acts + more).receipt == Some(TIMED_OUT)
  {
    acts := [Shell(TrapsExit), Shell(TrapsSignals), Shell(LaunchesDog), Outside(Fatal(code)),
             Shell(Tests), Shell(Writes), Shell(StartsMv), Helper(Places)];
    UnnotedRun(code, start);
    FromTheStart(true, acts, start);
    hide Inv, Allowed, After;
    more := TheDogMayWrite(After(Fresh(true), acts), start);
    Splits(Fresh(true), acts, more, start);
  }

  lemma UnnotedRun(code: Int64, start: nat)
    ensures var acts := [Shell(TrapsExit), Shell(TrapsSignals), Shell(LaunchesDog), Outside(Fatal(code)),
                         Shell(Tests), Shell(Writes), Shell(StartsMv), Helper(Places)];
      && Allowed(Fresh(true), acts, start)
      && After(Fresh(true), acts).receipt == Some(Receipt(code, false)) && After(Fresh(true), acts).dog.Asleep?
  {
    var first := [Shell(TrapsExit), Shell(TrapsSignals), Shell(LaunchesDog), Outside(Fatal(code))];
    var rest := [Shell(Tests), Shell(Writes), Shell(StartsMv), Helper(Places)];
    UnnotedStart(code, start);
    UnnotedEnd(code, start);
    hide Allowed, After;
    Splits(Fresh(true), first, rest, start);
    assert first + rest == [Shell(TrapsExit), Shell(TrapsSignals), Shell(LaunchesDog), Outside(Fatal(code)),
                            Shell(Tests), Shell(Writes), Shell(StartsMv), Helper(Places)];
  }

  function Unnoted(code: Int64): State { Fresh(true).(shell := Testing(code), dog := Asleep, unnamed := true) }

  lemma UnnotedStart(code: Int64, start: nat)
    ensures var acts := [Shell(TrapsExit), Shell(TrapsSignals), Shell(LaunchesDog), Outside(Fatal(code))];
      Allowed(Fresh(true), acts, start) && After(Fresh(true), acts) == Unnoted(code)
  {
    hide Allowed, After;
    AfterFour(Fresh(true), Shell(TrapsExit), Shell(TrapsSignals), Shell(LaunchesDog), Outside(Fatal(code)), start);
  }

  lemma UnnotedEnd(code: Int64, start: nat)
    ensures var acts := [Shell(Tests), Shell(Writes), Shell(StartsMv), Helper(Places)];
      && Allowed(Unnoted(code), acts, start)
      && After(Unnoted(code), acts).receipt == Some(Receipt(code, false)) && After(Unnoted(code), acts).dog.Asleep?
  {
    hide Allowed, After;
    AfterFour(Unnoted(code), Shell(Tests), Shell(Writes), Shell(StartsMv), Helper(Places), start);
  }

  lemma AfterFour(s: State, a: Act, b: Act, c: Act, d: Act, start: nat)
    ensures Allowed(s, [a, b, c, d], start) <==>
              Can(s, a, start) && Can(Do(s, a), b, start) && Can(Do(Do(s, a), b), c, start)
              && Can(Do(Do(Do(s, a), b), c), d, start)
    ensures After(s, [a, b, c, d]) == Do(Do(Do(Do(s, a), b), c), d)
  {
    hide Can, Do;
    var s1, s2, s3 := Do(s, a), Do(Do(s, a), b), Do(Do(Do(s, a), b), c);
    assert [a, b, c, d][1..] == [b, c, d] && [b, c, d][1..] == [c, d] && [c, d][1..] == [d] && [d][1..] == [];
    assert After(s3, [d]) == Do(s3, d);
    assert After(s2, [c, d]) == After(s3, [d]);
    assert After(s1, [b, c, d]) == After(s2, [c, d]);
    assert Allowed(s3, [d], start) <==> Can(s3, d, start);
    assert Allowed(s2, [c, d], start) <==> Can(s2, c, start) && Can(s3, d, start);
    assert Allowed(s1, [b, c, d], start) <==> Can(s1, b, start) && Can(s2, c, start) && Can(s3, d, start);
  }

  // ----- a command that ran over -----

  /** The command runs on past a mark: what any later receipt rests on. */
  predicate Overrun(s: State) {
    && s.marked && !s.tookDog
    && !BeforeCommand(s.shell) && !s.shell.Hunting?
    && (s.shell.Waiting? || s.shell.Testing? ==> s.mark)
    && (s.shell.Writing? ==> s.shell.text == TIMED_OUT)
    && (s.shell.Placing? || s.mover ==> s.tmp == Some(TIMED_OUT))
    && (s.receipt.Some? ==> s.receipt.value == TIMED_OUT)
  }

  lemma ShellOverruns(s: State, a: ShellStep)
    requires HelpersOk(s) && Overrun(s) && CanShell(s, a)
    ensures Overrun(DoShell(s, a))
  {
    match a {
      case Tests =>
      case _ =>
    }
  }

  lemma DogOverruns(s: State, a: DogStep)
    requires HelpersOk(s) && GroupOk(s) && Overrun(s) && CanDog(s, a)
    ensures Overrun(DoDog(s, a))
  {
    match a {
      case Terms =>
      case Kills =>
      case Tidies =>
      case _ =>
    }
  }

  lemma HelperOverruns(s: State, a: HelperStep)
    requires HelpersOk(s) && Overrun(s) && CanHelper(s, a)
    ensures Overrun(DoHelper(s, a))
  {
    match a {
      case Places =>
      case Clears =>
      case DogPlaces =>
      case _ =>
    }
  }

  lemma OutsideOverruns(s: State, a: OutsideStep, start: nat)
    requires HelpersOk(s) && Overrun(s) && CanOutside(s, a, start)
    ensures Overrun(DoOutside(s, a))
  {
    match a {
      case TermGroup(_) =>
      case KillGroup =>
      case _ =>
    }
  }

  lemma {:induction false} OverrunStays(s: State, acts: seq<Act>, start: nat)
    requires Inv(s) && Overrun(s) && Allowed(s, acts, start)
    ensures Overrun(After(s, acts))
    decreases acts
  {
    hide DogOk, ShellOk, HelpersOk, GroupOk, TextOk, Overrun, CanShell, CanDog, CanHelper, CanOutside;
    hide DoShell, DoDog, DoHelper, DoOutside;
    if acts != [] {
      StepKeepsInv(s, acts[0], start);
      match acts[0] {
        case Shell(sh) => ShellOverruns(s, sh);
        case Dog(d) => DogOverruns(s, d);
        case Helper(h) => HelperOverruns(s, h);
        case Outside(o) => OutsideOverruns(s, o, start);
      }
      OverrunStays(Do(s, acts[0]), acts[1..], start);
    }
  }

  /**
   A task whose command was still running when the watchdog set its mark says so, unless a fatal signal
   had taken the shell from that command before.
   */
  lemma OverrunIsReported(capped: bool, acts: seq<Act>, more: seq<Act>, start: nat)
    requires Allowed(Fresh(capped), acts + [Dog(Marks)] + more, start)
    requires After(Fresh(capped), acts).cmd.Running? && !CutIn(acts, false)
    ensures var s := After(Fresh(capped), acts + [Dog(Marks)] + more);
      s.receipt.Some? ==> s.receipt.value == TIMED_OUT
  {
    Splits(Fresh(capped), acts + [Dog(Marks)], more, start);
    Splits(Fresh(capped), acts, [Dog(Marks)], start);
    FromTheStart(capped, acts, start);
    var s := After(Fresh(capped), acts);
    assert After(s, [Dog(Marks)]) == Do(s, Dog(Marks)) && Can(s, Dog(Marks), start);
    StepKeepsInv(s, Dog(Marks), start);
    MarkOverruns(s);
    OverrunStays(Do(s, Dog(Marks)), more, start);
    hide Allowed, After, Can, Do;
  }

  lemma MarkOverruns(s: State)
    requires Inv(s) && CanDog(s, Marks) && s.cmd.Running? && !s.cut
    ensures Overrun(Do(s, Dog(Marks)))
  {
  }
}
