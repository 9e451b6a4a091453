/**
 The observer of a detached task: its reads of receipt, pid and process group, one system
 call at a time, interleaved with everything the task and the machine do meanwhile.
 */
module TaskLife {
  import opened Wrappers
  import opened ExitReceipt
  import opened LateReceipt
  import opened ReceiptText

  datatype Life = StillRunning | Exited(exit: Exit)

  const NO_CODE := Exited(Exit(None, false))

  /** What the registration holds: a readable pid, and the start time recorded for it. */
  datatype Meta = Meta(pidReadable: bool, want: Option<nat>)

  datatype Obs =
    | Idle | FirstLook | AskAlive | AskStart | AskGroup | SecondLook
    | Answered(life: Life)

  datatype World = World(task: State, obs: Obs)

  /** `told` says whether the machine gave the pid's start time when asked. */
  datatype Event = Task(act: Act) | Calls | Looks(told: bool)

  /** The start time the machine has for the pid. */
  function PidStart(s: State, start: nat): Option<nat> {
    if ShellAlive(s) then Some(start)
    else if s.stranger.Stranger? then Some(s.stranger.start)
    else None
  }

  function ExitOf(r: Receipt): Exit { ParseReceipt(Print(r)) }

  function NextObs(s: State, o: Obs, m: Meta, start: nat, told: bool): Obs {
    match o
    case FirstLook =>
      if s.receipt.Some? then Answered(Exited(ExitOf(s.receipt.value)))
      else if m.pidReadable then AskAlive
      else SecondLook
    case AskAlive => if PidAnswers(s) then AskStart else AskGroup
    case AskStart =>
      var got := if told then PidStart(s, start) else None;
      if m.want.Some? && got.Some? && m.want != got then SecondLook else Answered(StillRunning)
    case AskGroup => if GroupAnswers(s) then Answered(StillRunning) else SecondLook
    case SecondLook => Answered(if s.receipt.Some? then Exited(ExitOf(s.receipt.value)) else NO_CODE)
    case _ => o
  }

  predicate Waits(o: Obs) { o.Idle? || o.Answered? }

  predicate Possible(w: World, e: Event, start: nat) {
    match e
    case Task(a) => Can(w.task, a, start)
    case Calls => Waits(w.obs)
    case Looks(_) => !Waits(w.obs)
  }

  function Next(w: World, e: Event, m: Meta, start: nat): World {
    match e
    case Task(a) => w.(task := Do(w.task, a))
    case Calls => w.(obs := FirstLook)
    case Looks(told) => w.(obs := NextObs(w.task, w.obs, m, start, told))
  }

  predicate Runs(w: World, es: seq<Event>, m: Meta, start: nat)
    decreases es
  {
    es == [] || (Possible(w, es[0], start) && Runs(Next(w, es[0], m, start), es[1..], m, start))
  }

  function Reached(w: World, es: seq<Event>, m: Meta, start: nat): World
    decreases es
  {
    if es == [] then w else Reached(Next(w, es[0], m, start), es[1..], m, start)
  }

  /** What the task did of it. */
  function TaskActs(es: seq<Event>): seq<Act> {
    if es == [] then []
    else if es[0].Task? then [es[0].act] + TaskActs(es[1..])
    else TaskActs(es[1..])
  }

  lemma {:induction false} TaskRuns(w: World, es: seq<Event>, m: Meta, start: nat)
    requires Runs(w, es, m, start)
    ensures Allowed(w.task, TaskActs(es), start) && After(w.task, TaskActs(es)) == Reached(w, es, m, start).task
    decreases es
  {
    hide Can, Do, NextObs;
    if es != [] {
      TaskRuns(Next(w, es[0], m, start), es[1..], m, start);
      if es[0].Task? { PutFirst(w.task, es[0].act, TaskActs(es[1..]), start); }
    }
  }

  // ----- what an answer rests on -----

  /** A registration as it should be: a readable pid, and no other start time than the task's own. */
  predicate Right(m: Meta, start: nat) { m.pidReadable && (m.want.Some? ==> m.want.value == start) }

  /** Nobody of the group is left, and the shell died, or its mv did, short of a receipt. */
  predicate GoneWithout(s: State) {
    && !OwnGroup(s) && (s.shell.Killed? || s.lost)
    && (s.receipt.Some? ==> s.receipt.value == TIMED_OUT)
  }

  predicate Given(s: State, life: Life) {
    life.Exited? ==>
      if life.exit.code.None? then life == NO_CODE && GoneWithout(s)
      else s.receipt.Some? && (s.unnamed || life.exit == ExitOf(s.receipt.value))
  }

  predicate ObsOk(s: State, o: Obs) {
    && (o.SecondLook? ==> !OwnGroup(s))
    && (o.Answered? ==> Given(s, o.life))
  }

  lemma DogAfterAll(s: State, a: DogStep)
    requires CanDog(s, a) && !OwnGroup(s)
    ensures !OwnGroup(DoDog(s, a)) && (s.lost ==> DoDog(s, a).lost) && (s.shell.Killed? ==> DoDog(s, a).shell.Killed?)
    ensures DoDog(s, a).receipt == s.receipt
  {
    match a {
      case Terms =>
      case Kills =>
      case _ =>
    }
  }

  lemma HelperAfterAll(s: State, a: HelperStep)
    requires CanHelper(s, a) && !OwnGroup(s)
    ensures !OwnGroup(DoHelper(s, a)) && (s.lost ==> DoHelper(s, a).lost)
    ensures s.shell.Killed? ==> DoHelper(s, a).shell.Killed?
    ensures DoHelper(s, a).receipt == s.receipt || DoHelper(s, a).receipt == Some(TIMED_OUT)
  {
    match a {
      case DogPlaces =>
      case _ =>
    }
  }

  lemma OutsideAfterAll(s: State, a: OutsideStep, start: nat)
    requires CanOutside(s, a, start) && !OwnGroup(s)
    ensures var t := DoOutside(s, a);
      !OwnGroup(t) && (s.lost ==> t.lost) && (s.shell.Killed? ==> t.shell.Killed?) && t.receipt == s.receipt
  {
    match a {
      case EndDogMv =>
      case EndDog =>
      case PidReused(_, _) =>
      case StrangerEnds =>
      case _ =>
    }
  }

  lemma ShellIsInGroup(s: State, a: ShellStep)
    requires CanShell(s, a)
    ensures OwnGroup(s)
  {
  }

  /** Once the group is gone nobody comes back, and only the watchdog's receipt can still come. */
  lemma StaysGone(s: State, a: Act, start: nat)
    requires Can(s, a, start) && !OwnGroup(s)
    ensures !OwnGroup(Do(s, a)) && (GoneWithout(s) ==> GoneWithout(Do(s, a)))
  {
    hide CanShell, CanDog, CanHelper, CanOutside, DoShell, DoDog, DoHelper, DoOutside, OwnGroup;
    match a {
      case Shell(sh) => ShellIsInGroup(s, sh);
      case Dog(d) => DogAfterAll(s, d);
      case Helper(h) => HelperAfterAll(s, h);
      case Outside(o) => OutsideAfterAll(s, o, start);
    }
  }

  lemma ReceiptRemains(s: State, a: Act, start: nat)
    requires Inv(s) && Can(s, a, start) && s.receipt.Some?
    ensures Do(s, a).receipt.Some? && (Do(s, a).receipt == s.receipt || Do(s, a).unnamed)
    ensures s.unnamed ==> Do(s, a).unnamed
  {
    PastItsReceipt(s);
    StepKeepsInv(s, a, start);
    StepMakesHistory(s, a, start);
    hide Inv, CanShell, CanDog, CanHelper, CanOutside, DoShell, DoDog, DoHelper, DoOutside;
    match a {
      case Shell(sh) => ShellKeepsText(s, sh);
      case Dog(d) => DogKeepsText(s, d);
      case Helper(h) => HelperLeavesSome(s, h);
      case Outside(o) => OutsideKeepsText(s, o, start);
    }
  }

  lemma HelperLeavesSome(s: State, a: HelperStep)
    requires CanHelper(s, a) && !s.mover && s.receipt.Some?
    ensures DoHelper(s, a).receipt.Some?
  {
    match a {
      case DogPlaces =>
      case _ =>
    }
  }

  lemma TaskKeepsObs(s: State, o: Obs, a: Act, start: nat)
    requires Inv(s) && ObsOk(s, o) && Can(s, a, start)
    ensures ObsOk(Do(s, a), o)
  {
    hide Inv, Can, Do, OwnGroup, GoneWithout, ExitOf;
    if !OwnGroup(s) { StaysGone(s, a, start); }
    if s.receipt.Some? { ReceiptRemains(s, a, start); }
    if o.Answered? && o.life.Exited? && o.life.exit.code.None? {
      GoneHasNoGroup(s);
      assert GoneWithout(Do(s, a));
    }
  }

  lemma GoneHasNoGroup(s: State)
    requires GoneWithout(s)
    ensures !OwnGroup(s)
  {
  }

  lemma LookKeepsObs(s: State, o: Obs, m: Meta, start: nat, told: bool)
    requires Inv(s) && ObsOk(s, o) && Right(m, start)
    ensures ObsOk(s, NextObs(s, o, m, start, told))
  {
    hide DogOk, ShellOk, TextOk, ExitOf;
    if s.receipt.Some? { ExitHasCode(s.receipt.value); }
    if o.SecondLook? && s.receipt.None? { NoReceiptMeansDeath(s); }
    if o.AskStart? { hide HelpersOk; }
  }

  lemma ExitHasCode(r: Receipt)
    ensures ExitOf(r) == Exit(Some(r.code % 256), r.timeout)
  {
    ReceiptReadsBack(r);
  }

  lemma NoReceiptMeansDeath(s: State)
    requires Inv(s) && !OwnGroup(s) && s.receipt.None?
    ensures GoneWithout(s)
  {
    hide DogOk, ShellOk, TextOk, GroupOk;
  }

  lemma {:induction false} RunKeepsObs(w: World, es: seq<Event>, m: Meta, start: nat)
    requires Inv(w.task) && ObsOk(w.task, w.obs) && Runs(w, es, m, start) && Right(m, start)
    ensures Inv(Reached(w, es, m, start).task) && ObsOk(Reached(w, es, m, start).task, Reached(w, es, m, start).obs)
    decreases es
  {
    hide Inv, Can, Do, Right, NextObs;
    hide ObsOk;
    if es != [] {
      match es[0] {
        case Task(a) =>
          StepKeepsInv(w.task, a, start);
          TaskKeepsObs(w.task, w.obs, a, start);
        case Calls => AnyFirstLook(w.task);
        case Looks(told) => LookKeepsObs(w.task, w.obs, m, start, told);
      }
      RunKeepsObs(Next(w, es[0], m, start), es[1..], m, start);
    }
  }

  lemma AnyFirstLook(s: State)
    ensures ObsOk(s, FirstLook) && ObsOk(s, Idle)
  {
  }

  function Unobserved(capped: bool): World { World(Fresh(capped), Idle) }

  /** The foreground command, if it was started, is gone, and none will be. */
  predicate Ended(s: State) { !s.cmd.Running? && !BeforeCommand(s.shell) && !s.shell.Waiting? }

  /** An answer of "exited" is about a shell past its command, and with no code about nobody of the group. */
  lemma ExitedIsPast(s: State, life: Life)
    requires Inv(s) && Given(s, life) && life.Exited?
    ensures !BeforeCommand(s.shell) && !s.shell.Waiting? && (s.cmd.Running? ==> s.cut && s.receipt.Some?)
  {
    hide DogOk, ShellOk, GroupOk;
  }

  /**
   Under every interleaving "exited" is answered only after the task's end, unless a fatal signal took
   the shell from its command before.
   */
  lemma ExitedOnlyAfterTheEnd(capped: bool, es: seq<Event>, m: Meta, start: nat)
    requires Right(m, start) && Runs(Unobserved(capped), es, m, start)
    requires var o := Reached(Unobserved(capped), es, m, start).obs; o.Answered? && o.life.Exited?
    ensures Ended(Reached(Unobserved(capped), es, m, start).task) || CutIn(TaskActs(es), false)
  {
    hide Inv, Can, Do, Runs, Reached, Right, ObsOk, Given;
    var w := Reached(Unobserved(capped), es, m, start);
    AtAnyTime(capped, es, m, start);
    AnswerIsGiven(w.task, w.obs);
    ExitedIsPast(w.task, w.obs.life);
  }

  lemma AnswerIsGiven(s: State, o: Obs)
    requires ObsOk(s, o) && o.Answered?
    ensures Given(s, o.life)
  {
  }

  lemma AtAnyTime(capped: bool, es: seq<Event>, m: Meta, start: nat)
    requires Right(m, start) && Runs(Unobserved(capped), es, m, start)
    ensures var w := Reached(Unobserved(capped), es, m, start);
      Inv(w.task) && ObsOk(w.task, w.obs) && (w.task.cut <==> CutIn(TaskActs(es), false))
      && (w.task.unnamed <==> capped && UnnamedIn(TaskActs(es), false))
      && (w.task.lost <==> LostIn(TaskActs(es), false))
  {
    hide Inv, Can, Do, Runs, Reached, Right, ObsOk;
    FreshIsOk(capped);
    AnyFirstLook(Fresh(capped));
    RunKeepsObs(Unobserved(capped), es, m, start);
    TaskRuns(Unobserved(capped), es, m, start);
    FromTheStart(capped, TaskActs(es), start);
  }

  /**
   An answer with a code is the receipt's, unless a fatal signal came before the shell noted its watchdog.
   One without a code comes only when the shell was killed, or its mv was, before there was a receipt;
   nobody of the group is left then, and only the watchdog may leave one yet.
   */
  lemma AnswerIsTheReceiptOrAKill(capped: bool, es: seq<Event>, m: Meta, start: nat)
    requires Right(m, start) && Runs(Unobserved(capped), es, m, start)
    requires var o := Reached(Unobserved(capped), es, m, start).obs; o.Answered? && o.life.Exited?
    ensures var w := Reached(Unobserved(capped), es, m, start); var e := w.obs.life.exit;
      if e.code.Some? then
        && w.task.receipt.Some?
        && (!(capped && UnnamedIn(TaskActs(es), false)) ==>
              e == Exit(Some(w.task.receipt.value.code % 256), w.task.receipt.value.timeout))
      else
        && e == Exit(None, false) && !OwnGroup(w.task)
        && (w.task.shell.Killed? || LostIn(TaskActs(es), false))
        && (w.task.receipt.Some? ==> w.task.receipt.value == TIMED_OUT)
  {
    hide Inv, Can, Do, Runs, Reached, Right, ObsOk, OwnGroup, ExitOf;
    var w := Reached(Unobserved(capped), es, m, start);
    AtAnyTime(capped, es, m, start);
    AnswerIsGiven(w.task, w.obs);
    if w.task.receipt.Some? { ExitHasCode(w.task.receipt.value); }
  }

  // ----- runs that show it -----

  predicate Quiet(es: seq<Event>) { forall i :: 0 <= i < |es| ==> es[i].Task? ==> !IsFatal(es[i].act) }

  /** Some run without a fatal signal leads there. */
  ghost predicate Reachable(from: World, w: World, m: Meta, start: nat) {
    exists es :: Runs(from, es, m, start) && Quiet(es) && Reached(from, es, m, start) == w
  }

  lemma {:induction false} Joins(w: World, es: seq<Event>, more: seq<Event>, m: Meta, start: nat)
    ensures Runs(w, es + more, m, start) <==> Runs(w, es, m, start) && Runs(Reached(w, es, m, start), more, m, start)
    ensures Reached(w, es + more, m, start) == Reached(Reached(w, es, m, start), more, m, start)
    decreases es
  {
    hide Possible, Next;
    if es == [] {
      assert es + more == more;
    } else {
      assert (es + more)[1..] == es[1..] + more;
      Joins(Next(w, es[0], m, start), es[1..], more, m, start);
    }
  }

  lemma NoSteps(w: World, m: Meta, start: nat)
    ensures Reachable(w, w, m, start)
  {
    assert Runs(w, [], m, start) && Quiet([]) && Reached(w, [], m, start) == w;
  }

  lemma Onward(from: World, w: World, e: Event, m: Meta, start: nat) returns (v: World)
    requires Reachable(from, w, m, start) && Possible(w, e, start) && (e.Task? ==> !IsFatal(e.act))
    ensures v == Next(w, e, m, start) && Reachable(from, v, m, start)
  {
    hide Possible, Next, IsFatal;
    var es :| Runs(from, es, m, start) && Quiet(es) && Reached(from, es, m, start) == w;
    v := Next(w, e, m, start);
    Joins(from, es, [e], m, start);
    assert Reached(w, [e], m, start) == Reached(v, [], m, start);
    assert Runs(from, es + [e], m, start) && Quiet(es + [e]);
  }

  lemma {:induction false} QuietIsUncut(es: seq<Event>, started: bool)
    requires Quiet(es)
    ensures !CutIn(TaskActs(es), started) && NoFatal(TaskActs(es))
    decreases es
  {
    hide IsFatal, StartsIt;
    if es != [] {
      assert es[0].Task? ==> !IsFatal(es[0].act);
      assert forall i :: 0 <= i < |es[1..]| ==> es[1..][i] == es[i + 1];
      var begun := started || (es[0].Task? && StartsIt(es[0].act));
      QuietIsUncut(es[1..], begun);
      if es[0].Task? {
        var rest := TaskActs(es[1..]);
        assert TaskActs(es) == [es[0].act] + rest && ([es[0].act] + rest)[1..] == rest;
      }
    }
  }

  lemma ToTheCommand(capped: bool, m: Meta, start: nat) returns (w: World)
    ensures w == World(Fresh(capped).(shell := Waiting, cmd := Running, dog := if capped then Asleep else Absent), Idle)
    ensures Reachable(Unobserved(capped), w, m, start)
  {
    hide Reachable;
    var o := Unobserved(capped);
    NoSteps(o, m, start);
    w := Onward(o, o, Task(Shell(TrapsExit)), m, start);
    w := Onward(o, w, Task(Shell(TrapsSignals)), m, start);
    w := Onward(o, w, Task(Shell(LaunchesDog)), m, start);
    if capped { w := Onward(o, w, Task(Shell(NamesDog)), m, start); }
    w := Onward(o, w, Task(Shell(Starts)), m, start);
  }

  /** The first look came before the receipt, the rest of the script right after it. */
  lemma ToALateReceipt(m: Meta, start: nat) returns (w: World)
    requires m.pidReadable
    ensures w == World(Fresh(false).(shell := Left, cmd := Gone(0), receipt := Some(Receipt(0, false))), AskAlive)
    ensures Reachable(Unobserved(false), w, m, start)
  {
    hide Reachable;
    var o := Unobserved(false);
    w := ToTheCommand(false, m, start);
    w := Onward(o, w, Task(Helper(CommandEnds(0))), m, start);
    w := Onward(o, w, Calls, m, start);
    w := Onward(o, w, Looks(true), m, start);
    w := Onward(o, w, Task(Shell(Reaps)), m, start);
    w := ShellFinishes(o, w, 0, m, start);
  }

  /** From the end of its command the shell goes through its trap undisturbed. */
  lemma ShellFinishes(o: World, from: World, code: Int64, m: Meta, start: nat) returns (w: World)
    requires Reachable(o, from, m, start)
    requires from.task == Fresh(false).(shell := Testing(code), cmd := Gone(code))
    ensures w == from.(task := from.task.(shell := Left, receipt := Some(Receipt(code, false))))
    ensures Reachable(o, w, m, start)
  {
    hide Reachable;
    w := Onward(o, from, Task(Shell(Tests)), m, start);
    w := Onward(o, w, Task(Shell(Writes)), m, start);
    w := Onward(o, w, Task(Shell(StartsMv)), m, start);
    w := Onward(o, w, Task(Helper(Places)), m, start);
    w := Onward(o, w, Task(Shell(StartsRm)), m, start);
    w := Onward(o, w, Task(Helper(Clears)), m, start);
    w := Onward(o, w, Task(Shell(Leaves)), m, start);
  }

  /**
   Why there is a second look: in some run the first found nothing, pid and group are gone,
   and yet the shell was not killed and its receipt is there. Only the look to come sees it.
   */
  lemma SecondLookMatters(m: Meta, start: nat) returns (w: World)
    requires m.pidReadable
    ensures Reachable(Unobserved(false), w, m, start)
    ensures w.obs.SecondLook? && w.task.shell.Left? && w.task.receipt == Some(Receipt(0, false))
    ensures NextObs(w.task, w.obs, m, start, true) == Answered(Exited(Exit(Some(0), false)))
  {
    hide Reachable;
    var o := Unobserved(false);
    w := ToALateReceipt(m, start);
    w := Onward(o, w, Looks(true), m, start);
    w := Onward(o, w, Looks(true), m, start);
    ExitHasCode(Receipt(0, false));
  }

  /** Nobody of the group left, no receipt yet: the observer calls and answers without a code. */
  lemma LooksInVain(o: World, from: World, m: Meta, start: nat) returns (w: World)
    requires m.pidReadable && Reachable(o, from, m, start)
    requires Waits(from.obs) && from.task.receipt.None? && from.task.stranger.Nobody? && !OwnGroup(from.task)
    ensures w == from.(obs := Answered(NO_CODE)) && Reachable(o, w, m, start)
  {
    hide Reachable;
    w := Onward(o, from, Calls, m, start);
    w := Onward(o, w, Looks(true), m, start);
    w := Onward(o, w, Looks(true), m, start);
    w := Onward(o, w, Looks(true), m, start);
    w := Onward(o, w, Looks(true), m, start);
  }

  lemma ToTheTerm(m: Meta, start: nat) returns (w: World)
    ensures
      w == World(Fresh(true).(shell := Waiting, cmd := Running, dog := Terming, mark := true, marked := true), Idle)
    ensures Reachable(Unobserved(true), w, m, start)
  {
    hide Reachable;
    var o := Unobserved(true);
    w := ToTheCommand(true, m, start);
    w := Onward(o, w, Task(Dog(Wakes)), m, start);
    w := Onward(o, w, Task(Dog(Marks)), m, start);
  }

  /**
   A task killed for running over, whose command would not take the TERM, reads as ended
   without a code in the second between the watchdog's KILL and its receipt.
   */
  lemma TimedOutMayReadAsNoCode(m: Meta, start: nat) returns (w: World)
    requires m.pidReadable
    ensures Reachable(Unobserved(true), w, m, start)
    ensures w.obs == Answered(NO_CODE) && w.task.shell.Killed? && w.task.dog.Checking? && MayStillWrite(w.task)
  {
    hide Reachable;
    var o := Unobserved(true);
    w := ToTheTerm(m, start);
    w := Onward(o, w, Task(Dog(Terms)), m, start);
    w := Onward(o, w, Task(Dog(Kills)), m, start);
    w := LooksInVain(o, w, m, start);
  }

  /**
   A shell that found the mark and was placing its receipt when the watchdog's own TERM ended its mv:
   it takes the mark away and leaves by itself, and neither it nor the watchdog ever leaves a receipt.
   */
  lemma TermMayTakeTheReceipt(m: Meta, start: nat) returns (w: World)
    requires m.pidReadable
    ensures Reachable(Unobserved(true), w, m, start)
    ensures w.obs == Answered(NO_CODE) && w.task.shell.Left? && w.task.lost && w.task.receipt.None?
    ensures !MayStillWrite(w.task)
  {
    hide Reachable;
    var o := Unobserved(true);
    w := ToTheTerm(m, start);
    w := Onward(o, w, Task(Helper(CommandEnds(0))), m, start);
    w := Onward(o, w, Task(Shell(Reaps)), m, start);
    w := Onward(o, w, Task(Shell(Tests)), m, start);
    w := Onward(o, w, Task(Shell(Writes)), m, start);
    w := Onward(o, w, Task(Shell(StartsMv)), m, start);
    w := Onward(o, w, Task(Dog(Terms)), m, start);
    w := TakesTheMark(o, w, m, start);
    w := LooksInVain(o, w, m, start);
  }

  lemma TakesTheMark(o: World, from: World, m: Meta, start: nat) returns (w: World)
    requires Reachable(o, from, m, start) && from.task.shell.Renaming? && !from.task.mover && !from.task.remover
    ensures w == from.(task := from.task.(shell := Left, mark := false)) && Reachable(o, w, m, start)
  {
    hide Reachable;
    w := Onward(o, from, Task(Shell(StartsRm)), m, start);
    w := Onward(o, w, Task(Helper(Clears)), m, start);
    w := Onward(o, w, Task(Shell(Leaves)), m, start);
  }

  // ----- when an answer without a code is the last word -----

  /** Exactly when the watchdog will not leave a receipt: it is gone, or past its mark with the mark gone. */
  lemma NoCodeIsFinalIff(capped: bool, es: seq<Event>, m: Meta, start: nat)
    requires Right(m, start) && Runs(Unobserved(capped), es, m, start)
    requires var w := Reached(Unobserved(capped), es, m, start); w.obs == Answered(NO_CODE) && w.task.receipt.None?
    ensures var s := Reached(Unobserved(capped), es, m, start).task;
      (forall acts :: Allowed(s, acts, start) ==> After(s, acts).receipt.None?) <==> !MayStillWrite(s)
  {
    hide Can, Do, Runs, Reached, Right, ObsOk, DogOk, ShellOk, HelpersOk, GroupOk, TextOk;
    var w := Reached(Unobserved(capped), es, m, start);
    var s := w.task;
    AtAnyTime(capped, es, m, start);
    AnswerIsGiven(s, w.obs);
    GoneIsPast(s);
    hide MayStillWrite;
    if MayStillWrite(s) {
      var acts := TheDogMayWrite(s, start);
    } else {
      forall acts | Allowed(s, acts, start) ensures After(s, acts).receipt.None? { NobodyLeftToWrite(s, acts, start); }
    }
  }

  lemma GoneIsPast(s: State)
    requires GoneWithout(s)
    ensures PastPlacing(s.shell) && !s.mover
  {
  }

  // ----- when "exited" comes early -----

  /** The run says "exited" of a command that runs, although no fatal signal took the shell from it. */
  ghost predicate SaysTooEarly(capped: bool, es: seq<Event>, m: Meta, start: nat) {
    && Runs(Unobserved(capped), es, m, start) && !CutIn(TaskActs(es), false)
    && var w := Reached(Unobserved(capped), es, m, start);
       w.obs.Answered? && w.obs.life.Exited? && !Ended(w.task)
  }

  /** Among all registrations, exactly those with an unreadable pid or another start time than the task's. */
  lemma NeverEarlyIffRight(capped: bool, m: Meta, start: nat)
    ensures (forall es :: !SaysTooEarly(capped, es, m, start)) <==> Right(m, start)
  {
    if Right(m, start) {
      forall es ensures !SaysTooEarly(capped, es, m, start) { NotTooEarly(capped, es, m, start); }
    } else {
      var w := WrongIsEarly(capped, m, start);
      var es :| Runs(Unobserved(capped), es, m, start) && Quiet(es) && Reached(Unobserved(capped), es, m, start) == w;
      QuietIsUncut(es, false);
      assert SaysTooEarly(capped, es, m, start);
    }
  }

  lemma NotTooEarly(capped: bool, es: seq<Event>, m: Meta, start: nat)
    requires Right(m, start)
    ensures !SaysTooEarly(capped, es, m, start)
  {
    hide Ended, Runs, Reached, Right;
    if SaysTooEarly(capped, es, m, start) { ExitedOnlyAfterTheEnd(capped, es, m, start); }
  }

  lemma WrongIsEarly(capped: bool, m: Meta, start: nat) returns (w: World)
    requires !Right(m, start)
    ensures Reachable(Unobserved(capped), w, m, start) && w.obs == Answered(NO_CODE) && w.task.cmd.Running?
  {
    hide Reachable;
    var o := Unobserved(capped);
    w := ToTheCommand(capped, m, start);
    w := Onward(o, w, Calls, m, start);
    w := Onward(o, w, Looks(true), m, start);
    if m.pidReadable {
      w := Onward(o, w, Looks(true), m, start);
      w := Onward(o, w, Looks(true), m, start);
    }
    w := Onward(o, w, Looks(true), m, start);
  }

  lemma {:induction false} TaskGoes(o: World, from: World, acts: seq<Act>, m: Meta, start: nat) returns (w: World)
    requires Reachable(o, from, m, start) && Allowed(from.task, acts, start) && NoFatal(acts)
    ensures w == from.(task := After(from.task, acts)) && Reachable(o, w, m, start)
    decreases acts
  {
    hide Reachable, Can, Do, IsFatal;
    if acts == [] {
      w := from;
    } else {
      assert !IsFatal(acts[0]);
      assert forall i :: 0 <= i < |acts[1..]| ==> acts[1..][i] == acts[i + 1];
      w := Onward(o, from, Task(acts[0]), m, start);
      w := TaskGoes(o, w, acts[1..], m, start);
    }
  }

  function LooksLeft(o: Obs): nat {
    match o
    case FirstLook => 4 case AskAlive => 3 case AskStart => 2 case AskGroup => 2 case SecondLook => 1 case _ => 0
  }

  lemma LookIsNearer(s: State, o: Obs, m: Meta, start: nat)
    requires !Waits(o)
    ensures LooksLeft(NextObs(s, o, m, start, true)) < LooksLeft(o)
  {
    hide PidAnswers, GroupAnswers, ExitOf, PidStart;
    match o {
      case FirstLook =>
      case AskAlive =>
      case AskStart =>
      case AskGroup =>
      case _ =>
    }
  }

  lemma {:induction false} LookEnds(o: World, from: World, m: Meta, start: nat) returns (w: World)
    requires Reachable(o, from, m, start)
    ensures Waits(w.obs) && w.task == from.task && Reachable(o, w, m, start)
    decreases LooksLeft(from.obs)
  {
    hide Reachable, NextObs, LooksLeft;
    w := from;
    if !Waits(from.obs) {
      LookIsNearer(from.task, from.obs, m, start);
      w := Onward(o, from, Looks(true), m, start);
      w := LookEnds(o, w, m, start);
    }
  }

  /** A run on from here says "exited" of a command that runs. */
  ghost predicate SaysOfRunning(w: World, more: seq<Event>, m: Meta, start: nat) {
    && Runs(w, more, m, start) && Quiet(more)
    && var v := Reached(w, more, m, start); v.obs.Answered? && v.obs.life.Exited? && v.task.cmd.Running?
  }

  /**
   From anywhere in any run, and with no further fatal signal, "exited" can come to be answered of the
   running command if and only if such a signal took the shell from it, it runs on, and the shell, or its
   mv, has not died since short of the receipt.
   */
  lemma ExitedWhileRunningIff(capped: bool, es: seq<Event>, m: Meta, start: nat)
    requires Right(m, start) && Runs(Unobserved(capped), es, m, start)
    ensures var w := Reached(Unobserved(capped), es, m, start);
      (exists more :: SaysOfRunning(w, more, m, start))
        <==> CutIn(TaskActs(es), false) && w.task.cmd.Running? && Pressing(w.task)
  {
    var w := Reached(Unobserved(capped), es, m, start);
    AtAnyTime(capped, es, m, start);
    hide Inv, Can, Do, Pressing, ObsOk, Right;
    if more :| SaysOfRunning(w, more, m, start) { SaidOfRunning(w, more, m, start); }
    if RunsPast(w.task) {
      var more := SaysSo(w, m, start);
    }
  }

  lemma SaidOfRunning(w: World, more: seq<Event>, m: Meta, start: nat)
    requires Inv(w.task) && ObsOk(w.task, w.obs) && Right(m, start) && SaysOfRunning(w, more, m, start)
    ensures RunsPast(w.task)
  {
    hide Inv, Can, Do, Runs, Reached, Right, ObsOk, RunsPast, Given;
    var v := Reached(w, more, m, start);
    RunKeepsObs(w, more, m, start);
    AnswerIsGiven(v.task, v.obs);
    ExitedIsPast(v.task, v.obs.life);
    BesideIsPast(v.task);
    TaskRuns(w, more, m, start);
    QuietIsUncut(more, false);
    WasPast(w.task, TaskActs(more), start);
  }

  lemma SaysSo(w: World, m: Meta, start: nat) returns (more: seq<Event>)
    requires Inv(w.task) && RunsPast(w.task)
    ensures SaysOfRunning(w, more, m, start)
  {
    var acts := ToTheReceipt(w.task, start);
    NoSteps(w, m, start);
    hide Inv, RunsPast, Reachable;
    var v := TaskGoes(w, w, acts, m, start);
    v := LookEnds(w, v, m, start);
    v := Onward(w, v, Calls, m, start);
    v := Onward(w, v, Looks(true), m, start);
    more := TheRun(w, v, m, start);
  }

  lemma TheRun(from: World, w: World, m: Meta, start: nat) returns (es: seq<Event>)
    requires Reachable(from, w, m, start)
    ensures Runs(from, es, m, start) && Quiet(es) && Reached(from, es, m, start) == w
  {
    es :| Runs(from, es, m, start) && Quiet(es) && Reached(from, es, m, start) == w;
  }

  /** And such a run there is: the signal, the trap, the receipt, and the command still in the making. */
  lemma FatalMayTellTooEarly(capped: bool, code: Int64, m: Meta, start: nat) returns (es: seq<Event>)
    requires Right(m, start)
    ensures Runs(Unobserved(capped), es, m, start)
    ensures var w := Reached(Unobserved(capped), es, m, start);
      w.obs.Answered? && w.obs.life.Exited? && w.task.cmd.Running?
  {
    var o := Unobserved(capped);
    var w := ToTheCommand(capped, m, start);
    var first := TheRun(o, w, m, start);
    var hit := Task(Outside(Fatal(code)));
    var v := Next(w, hit, m, start);
    AtAnyTime(capped, first, m, start);
    StepKeepsInv(w.task, hit.act, start);
    assert RunsPast(v.task);
    hide Inv, Reachable, Reached, Runs;
    var more := SaysSo(v, m, start);
    es := first + ([hit] + more);
    OneFirst(w, hit, more, m, start);
    Joins(o, first, [hit] + more, m, start);
  }

  lemma OneFirst(w: World, e: Event, es: seq<Event>, m: Meta, start: nat)
    requires Possible(w, e, start) && Runs(Next(w, e, m, start), es, m, start)
    ensures Runs(w, [e] + es, m, start) && Reached(w, [e] + es, m, start) == Reached(Next(w, e, m, start), es, m, start)
  {
    hide Possible, Next;
    assert ([e] + es)[1..] == es;
  }
}
