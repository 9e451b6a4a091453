/**
 The exit receipt of a detached task: the generated script's shell, its foreground
 command, its timeout watchdog and the outside world, interleaved one atomic step at a
 time. The steps are the script's own lines: test, create, write aside, rename, remove,
 signal, and the death of a process. `mv` and `rm` are processes of their own. A write that
 nobody but its writer reads is part of the step before.
 */
module ExitReceipt {
  import opened Wrappers

  type Int64 = n: int | -0x8000_0000_0000_0000 <= n < 0x8000_0000_0000_0000

  /** What a receipt says: the code on its first line, and whether a `timeout` line follows. */
  datatype Receipt = Receipt(code: Int64, timeout: bool)

  const TIMED_OUT := Receipt(124, true)

  /** Where the shell is in its script. The states from Testing on are its EXIT trap. */
  datatype Shell =
    | Boot                      // no trap set yet
    | ExitTrapSet               // EXIT trapped, signals not yet
    | Shielded                  // HUP, INT and TERM trapped as well
    | Naming                    // the watchdog is up, its pid not yet noted
    | Launching                 // the watchdog, if any, is noted
    | Waiting                   // the command is in the foreground
    | Testing(rc: Int64)          // about to look for the mark
    | Hunting(rc: Int64)          // saw no mark: about to kill the watchdog
    | Writing(text: Receipt)    // about to write the receipt aside
    | Placing                   // about to start its mv
    | Renaming                  // its mv is at work, or has ended
    | Removing                  // its rm is at work, or has ended
    | Left                      // exited by itself
    | Killed                    // died of a signal

  /** Where the watchdog is. Not launched, asleep, and then its lines one by one. */
  datatype Watchdog =
    | Absent | Asleep | Marking | Terming | Killing | Checking
    | Filing                    // saw the mark: about to start its mv
    | Moving                    // its mv is at work
    | Tidying                   // about to remove the mark
    | Over                      // ended by itself
    | Slain                     // killed

  /** The foreground command, once it is gone with the code the shell will see. */
  datatype Command = Unstarted | Running | Gone(code: Int64)

  /** Who holds the pid once nobody of the task's group is left. */
  datatype Stranger = Nobody | Stranger(start: nat, leads: bool)

  datatype State = State(
    capped: bool,               // the call carried a timeout
    shell: Shell,
    dog: Watchdog,
    cmd: Command,
    strays: bool,               // background processes of the command, in its group
    mover: bool,                // the shell's mv, in its group, has not renamed yet
    remover: bool,              // the shell's rm, in its group, has not removed yet
    dogMover: bool,             // the watchdog's mv, in the watchdog's group, has not renamed yet
    stranger: Stranger,
    mark: bool,                 // <receipt>.timeout is there
    tmp: Option<Receipt>,       // <receipt>.tmp
    receipt: Option<Receipt>,
    marked: bool,               // history: the watchdog has set its mark
    tookDog: bool,              // history: the shell killed its watchdog
    cut: bool,                  // history: a fatal signal took the shell from its command
    unnamed: bool,              // history: or from noting its watchdog
    lost: bool)                 // history: the shell's mv was ended before it renamed

  datatype ShellStep =
    | TrapsExit | TrapsSignals | LaunchesDog | NamesDog | Starts | Reaps
    | Tests | Hunts | Writes | StartsMv | StartsRm | Leaves

  datatype DogStep = Wakes | Marks | Terms | Kills | Checks | Files | Tidies

  /** What the processes that were started do: the command, the two mv and the rm. */
  datatype HelperStep = CommandEnds(code: Int64) | StraysAppear | StraysEnd | Places | Clears | DogPlaces

  /** Signals from outside, and what becomes of the pid. */
  datatype OutsideStep =
    | Fatal(code: Int64)          // to the shell alone: one it does not trap and can die of, KILL apart
    | KillShell | TermGroup(code: Int64) | KillGroup
    | EndMv | EndRm             // any deadly signal to that process alone, as to the next two
    | EndDog | EndDogMv
    | PidReused(start: nat, leads: bool) | StrangerEnds

  datatype Act = Shell(sh: ShellStep) | Dog(d: DogStep) | Helper(h: HelperStep) | Outside(o: OutsideStep)

  function Fresh(capped: bool): State {
    State(capped, Boot, Absent, Unstarted, false, false, false, false, Nobody, false, None, None,
          false, false, false, false, false)
  }

  predicate ShellAlive(s: State) { !s.shell.Left? && !s.shell.Killed? }

  /** Someone of the task's own process group is left. */
  predicate OwnGroup(s: State) { ShellAlive(s) || s.cmd.Running? || s.strays || s.mover || s.remover }

  /** What `kill -0 -- -<pid>` finds: the task's group, or a stranger's under the same id. */
  predicate GroupAnswers(s: State) { OwnGroup(s) || (s.stranger.Stranger? && s.stranger.leads) }

  /** What `kill -0 <pid>` finds. */
  predicate PidAnswers(s: State) { ShellAlive(s) || s.stranger.Stranger? }

  predicate DogAlive(d: Watchdog) { !d.Absent? && !d.Over? && !d.Slain? }

  /** SIGKILL to the whole group: everyone in it dies at once. */
  function GroupKilled(s: State): State {
    s.(shell := if ShellAlive(s) then Killed else s.shell,
       cmd := if s.cmd.Running? then Gone(137) else s.cmd,
       strays := false, mover := false, remover := false, lost := s.lost || s.mover)
  }

  /**
   SIGTERM to the whole group: the shell holds it once it is trapped, the command may too, and a
   mv or rm at work dies.
   */
  function GroupTermed(s: State, code: Int64): State {
    s.(shell := if s.shell.Boot? then Killed else if s.shell.ExitTrapSet? then Testing(code) else s.shell,
       mover := false, remover := false, lost := s.lost || s.mover)
  }

  // ----- the steps -----

  predicate CanShell(s: State, a: ShellStep) {
    match a
    case TrapsExit => s.shell.Boot?
    case TrapsSignals => s.shell.ExitTrapSet?
    case LaunchesDog => s.shell.Shielded?
    case NamesDog => s.shell.Naming?
    case Starts => s.shell.Launching?
    case Reaps => s.shell.Waiting? && s.cmd.Gone?
    case Tests => s.shell.Testing?
    case Hunts => s.shell.Hunting?
    case Writes => s.shell.Writing?
    case StartsMv => s.shell.Placing?
    case StartsRm => s.shell.Renaming? && !s.mover
    case Leaves => s.shell.Removing? && !s.remover
  }

  function DoShell(s: State, a: ShellStep): State
    requires CanShell(s, a)
  {
    match a
    case TrapsExit => s.(shell := ExitTrapSet)
    case TrapsSignals => s.(shell := Shielded)
    case LaunchesDog => if s.capped then s.(shell := Naming, dog := Asleep) else s.(shell := Launching)
    case NamesDog => s.(shell := Launching)
    case Starts => s.(shell := Waiting, cmd := Running)
    case Reaps => s.(shell := Testing(s.cmd.code))
    case Tests =>
      s.(shell := if s.mark then Writing(TIMED_OUT)
                  else if s.dog.Absent? || s.unnamed then Writing(Receipt(s.shell.rc, false))
                  else Hunting(s.shell.rc))
    case Hunts =>
      s.(shell := Writing(Receipt(s.shell.rc, false)),
         dog := if DogAlive(s.dog) then Slain else s.dog, dogMover := false, tookDog := true)
    case Writes => s.(shell := Placing, tmp := Some(s.shell.text))
    case StartsMv => s.(shell := Renaming, mover := true)
    case StartsRm => s.(shell := Removing, remover := true)
    case Leaves => s.(shell := Left)
  }

  predicate CanDog(s: State, a: DogStep) {
    match a
    case Wakes => s.dog.Asleep?
    case Marks => s.dog.Marking?
    case Terms => s.dog.Terming?
    case Kills => s.dog.Killing?
    case Checks => s.dog.Checking?
    case Files => s.dog.Filing?
    case Tidies => s.dog.Tidying?
  }

  function DoDog(s: State, a: DogStep): State {
    match a
    case Wakes => s.(dog := if GroupAnswers(s) then Marking else Over)
    case Marks => s.(dog := Terming, mark := true, marked := true)
    case Terms => GroupTermed(s, 143).(dog := Killing)
    case Kills => GroupKilled(s).(dog := Checking)
    case Checks => s.(dog := if s.mark then Filing else Over)
    case Files => s.(dog := Moving, dogMover := true)
    case Tidies => s.(dog := Over, mark := false)
  }

  predicate CanHelper(s: State, a: HelperStep) {
    match a
    case CommandEnds(_) => s.cmd.Running?
    case StraysAppear => s.cmd.Running?
    case StraysEnd => s.strays
    case Places => s.mover
    case Clears => s.remover
    case DogPlaces => s.dogMover
  }

  function DoHelper(s: State, a: HelperStep): State {
    match a
    case CommandEnds(code) => s.(cmd := Gone(code))
    case StraysAppear => s.(strays := true)
    case StraysEnd => s.(strays := false)
    case Places => s.(mover := false, receipt := s.tmp, tmp := None)
    case Clears => s.(remover := false, mark := false)
    case DogPlaces =>
      s.(dogMover := false, receipt := Some(TIMED_OUT), dog := if s.dog.Moving? then Tidying else s.dog)
  }

  /** Where a fatal signal makes the shell run its EXIT trap at once; later on it dies as of a KILL. */
  predicate Interruptible(h: Shell) {
    h.ExitTrapSet? || h.Shielded? || h.Naming? || h.Launching? || h.Waiting?
  }

  /** `start` is the task's own start time, which no stranger has. */
  predicate CanOutside(s: State, a: OutsideStep, start: nat) {
    match a
    case Fatal(_) => Interruptible(s.shell)
    case KillShell => ShellAlive(s)
    case TermGroup(_) => OwnGroup(s)
    case KillGroup => OwnGroup(s)
    case EndMv => s.mover
    case EndRm => s.remover
    case EndDog => DogAlive(s.dog)
    case EndDogMv => s.dogMover
    // A pid is not handed out while it, or a group by that id, lives.
    case PidReused(t, _) => !OwnGroup(s) && s.stranger.Nobody? && t != start
    case StrangerEnds => s.stranger.Stranger?
  }

  function DoOutside(s: State, a: OutsideStep): State {
    match a
    case Fatal(code) =>
      s.(shell := Testing(code), cut := s.cut || s.shell.Waiting?, unnamed := s.unnamed || s.shell.Naming?)
    case KillShell => s.(shell := Killed)
    case TermGroup(code) => GroupTermed(s, code)
    case KillGroup => GroupKilled(s)
    case EndMv => s.(mover := false, lost := true)
    case EndRm => s.(remover := false)
    case EndDog => s.(dog := Slain)
    case EndDogMv => s.(dogMover := false, dog := if s.dog.Moving? then Over else s.dog)
    case PidReused(t, leads) => s.(stranger := Stranger(t, leads))
    case StrangerEnds => s.(stranger := Nobody)
  }

  predicate Can(s: State, a: Act, start: nat) {
    match a
    case Shell(sh) => CanShell(s, sh)
    case Dog(d) => CanDog(s, d)
    case Helper(h) => CanHelper(s, h)
    case Outside(o) => CanOutside(s, o, start)
  }

  function Do(s: State, a: Act): State {
    match a
    case Shell(sh) => if CanShell(s, sh) then DoShell(s, sh) else s
    case Dog(d) => DoDog(s, d)
    case Helper(h) => DoHelper(s, h)
    case Outside(o) => DoOutside(s, o)
  }

  predicate Allowed(s: State, acts: seq<Act>, start: nat)
    decreases acts
  {
    acts == [] || (Can(s, acts[0], start) && Allowed(Do(s, acts[0]), acts[1..], start))
  }

  function After(s: State, acts: seq<Act>): State
    decreases acts
  {
    if acts == [] then s else After(Do(s, acts[0]), acts[1..])
  }

  // ----- what every step keeps -----

  predicate DogPastMark(d: Watchdog) {
    d.Terming? || d.Killing? || d.Checking? || d.Filing? || d.Moving? || d.Tidying?
  }

  predicate DogPastKill(d: Watchdog) { d.Checking? || d.Filing? || d.Moving? || d.Tidying? }

  predicate Early(h: Shell) { h.Boot? || h.ExitTrapSet? || h.Shielded? }

  predicate BeforeCommand(h: Shell) { Early(h) || h.Naming? || h.Launching? }

  predicate PastPlacing(h: Shell) { h.Renaming? || h.Removing? || h.Left? || h.Killed? }

  /** The watchdog and its mark. */
  predicate DogOk(s: State) {
    && (s.mark ==> s.marked)
    && (DogPastMark(s.dog) ==> s.marked)
    && (s.marked ==> !s.dog.Absent?)
    && (!s.capped ==> s.dog.Absent?)
    && (Early(s.shell) ==> s.dog.Absent?)
    && (s.dogMover ==> s.marked && (s.dog.Moving? || s.dog.Slain?))
    && (s.dog.Moving? ==> s.dogMover)
    && (s.tookDog ==> !DogAlive(s.dog) && !s.dogMover)
    && (s.shell.Naming? || s.shell.Launching? || s.shell.Waiting? ==> s.capped ==> !s.dog.Absent?)
  }

  /** The shell and its command, which it outlives unless a signal takes it. */
  predicate ShellOk(s: State) {
    && (BeforeCommand(s.shell) ==> s.cmd.Unstarted? && !s.strays)
    && (s.shell.Waiting? ==> !s.cmd.Unstarted?)
    && (s.cmd.Running? ==> s.shell.Waiting? || s.shell.Killed? || s.cut)
    && (s.shell.Testing? || s.shell.Hunting? ==> s.cmd.Gone? && !s.cut ==> s.shell.rc == s.cmd.code)
    && (s.cut ==> !BeforeCommand(s.shell) && !s.shell.Waiting? && !s.cmd.Unstarted?)
    && (s.unnamed ==> s.capped && !BeforeCommand(s.shell) && s.cmd.Unstarted? && !s.tookDog)
    && (s.shell.Hunting? ==> !s.dog.Absent? && !s.unnamed)
    && (s.tookDog ==> s.shell.Writing? || s.shell.Placing? || PastPlacing(s.shell))
    && (s.shell.Naming? ==> s.capped)
  }

  /** The shell's mv and rm. */
  predicate HelpersOk(s: State) {
    && (s.mover ==> (s.shell.Renaming? || s.shell.Killed?) && s.tmp.Some? && s.receipt.None?)
    && (s.remover ==> s.shell.Removing? || s.shell.Killed?)
    && (s.lost ==> PastPlacing(s.shell))
    && (s.shell.Left? ==> !s.mover && !s.remover)
    && (s.receipt.Some? ==> PastPlacing(s.shell))
    && (s.receipt.None? && PastPlacing(s.shell) && !s.shell.Killed? && !s.mover ==> s.lost)
  }

  /** Who is left when. */
  predicate GroupOk(s: State) {
    && (s.stranger.Stranger? ==> !OwnGroup(s))
    && (DogPastKill(s.dog) || s.dogMover ==> !OwnGroup(s))
    && (s.dog.Tidying? ==> s.receipt.Some?)
    // Until the shell's rm nobody takes the mark away.
    && (BeforeCommand(s.shell) || s.shell.Waiting? || s.shell.Testing? ==> DogPastMark(s.dog) ==> s.mark)
  }

  /** A receipt the shell may write: its command's own code, or the timeout it saw marked. */
  predicate Honest(s: State, r: Receipt) {
    if r.timeout then r == TIMED_OUT && s.marked && !s.tookDog
    else
      && (!s.unnamed ==> !DogAlive(s.dog) && !s.dogMover && (!s.dog.Absent? ==> s.tookDog))
      && (s.cmd.Gone? && !s.cut ==> r.code == s.cmd.code)
  }

  /** What is written aside is what will be placed, and what is placed stays. */
  predicate TextOk(s: State) {
    && (s.shell.Writing? ==> Honest(s, s.shell.text))
    && (s.shell.Placing? ==> s.tmp.Some?)
    && (s.shell.Placing? || s.mover ==> s.tmp.Some? ==> Honest(s, s.tmp.value))
    && (s.receipt.Some? ==> Honest(s, s.receipt.value))
    && (s.mover || s.receipt.Some? ==> s.cmd.Running? ==> s.cut)
  }

  predicate Inv(s: State) { DogOk(s) && ShellOk(s) && HelpersOk(s) && GroupOk(s) && TextOk(s) }

  lemma ShellKeepsItself(s: State, a: ShellStep)
    requires Inv(s) && CanShell(s, a)
    ensures DogOk(DoShell(s, a)) && ShellOk(DoShell(s, a))
  {
    hide HelpersOk, TextOk;
  }

  lemma ShellKeepsRest(s: State, a: ShellStep)
    requires Inv(s) && CanShell(s, a)
    ensures HelpersOk(DoShell(s, a)) && GroupOk(DoShell(s, a))
  {
    hide DogOk, Honest;
  }

  lemma ShellKeepsText(s: State, a: ShellStep)
    requires Inv(s) && CanShell(s, a)
    ensures TextOk(DoShell(s, a)) && DoShell(s, a).receipt == s.receipt
  {
  }

  lemma DogKeepsRest(s: State, a: DogStep)
    requires Inv(s) && CanDog(s, a)
    ensures var t := DoDog(s, a); DogOk(t) && ShellOk(t) && HelpersOk(t) && GroupOk(t)
  {
  }

  lemma DogKeepsText(s: State, a: DogStep)
    requires Inv(s) && CanDog(s, a)
    ensures TextOk(DoDog(s, a)) && DoDog(s, a).receipt == s.receipt
  {
  }

  lemma HelperKeepsRest(s: State, a: HelperStep)
    requires Inv(s) && CanHelper(s, a)
    ensures var t := DoHelper(s, a); DogOk(t) && ShellOk(t) && HelpersOk(t) && GroupOk(t)
  {
  }

  lemma HelperKeepsText(s: State, a: HelperStep)
    requires Inv(s) && CanHelper(s, a)
    ensures TextOk(DoHelper(s, a)) && (s.receipt.Some? && !s.unnamed ==> DoHelper(s, a).receipt == s.receipt)
  {
  }

  lemma OutsideKeepsRest(s: State, a: OutsideStep, start: nat)
    requires Inv(s) && CanOutside(s, a, start)
    ensures var t := DoOutside(s, a); DogOk(t) && ShellOk(t) && HelpersOk(t) && GroupOk(t)
  {
  }

  lemma OutsideKeepsText(s: State, a: OutsideStep, start: nat)
    requires Inv(s) && CanOutside(s, a, start)
    ensures TextOk(DoOutside(s, a)) && DoOutside(s, a).receipt == s.receipt
  {
  }

  /** Whoever takes it, a step keeps the invariant and never touches a receipt of a watchdog it knew of. */
  lemma StepKeepsInv(s: State, a: Act, start: nat)
    requires Inv(s) && Can(s, a, start)
    ensures Inv(Do(s, a))
    ensures s.receipt.Some? && !s.unnamed ==> Do(s, a).receipt == s.receipt
  {
    hide DogOk, ShellOk, HelpersOk, GroupOk, TextOk, CanShell, CanDog, CanHelper, CanOutside;
    hide DoShell, DoDog, DoHelper, DoOutside;
    match a {
      case Shell(sh) =>
        ShellKeepsItself(s, sh);
        ShellKeepsRest(s, sh);
        ShellKeepsText(s, sh);
      case Dog(d) =>
        DogKeepsRest(s, d);
        DogKeepsText(s, d);
      case Helper(h) =>
        HelperKeepsRest(s, h);
        HelperKeepsText(s, h);
      case Outside(o) =>
        OutsideKeepsRest(s, o, start);
        OutsideKeepsText(s, o, start);
    }
  }

  /** What a step adds to the history. */
  predicate Adds(s: State, t: State, marks: bool, hunts: bool, cuts: bool, unnames: bool,
                 starts: bool, launches: bool)
  {
    && (t.marked <==> s.marked || marks)
    && (t.tookDog <==> s.tookDog || hunts)
    && (t.cut <==> s.cut || cuts)
    && (t.unnamed <==> s.unnamed || unnames)
    && (t.cmd.Unstarted? <==> s.cmd.Unstarted? && !starts)
    && (t.dog.Absent? <==> s.dog.Absent? && !(s.capped && launches))
    && t.capped == s.capped
  }

  lemma ShellMakesHistory(s: State, a: ShellStep)
    requires DogOk(s) && ShellOk(s) && CanShell(s, a)
    ensures Adds(s, DoShell(s, a), false, a.Hunts?, false, false, a.Starts?, a.LaunchesDog?)
  {
    if a.LaunchesDog? {
      LaunchMakesHistory(s);
      hide *;
    } else if a.Tests? {
      TestMakesHistory(s);
      hide *;
    }
  }

  lemma LaunchMakesHistory(s: State)
    requires DogOk(s) && ShellOk(s) && CanShell(s, LaunchesDog)
    ensures Adds(s, DoShell(s, LaunchesDog), false, false, false, false, false, true)
  {
    if s.capped {
    } else {
    }
  }

  lemma TestMakesHistory(s: State)
    requires CanShell(s, Tests)
    ensures Adds(s, DoShell(s, Tests), false, false, false, false, false, false)
  {
  }

  lemma DogMakesHistory(s: State, a: DogStep)
    requires CanDog(s, a)
    ensures Adds(s, DoDog(s, a), a.Marks?, false, false, false, false, false)
  {
  }

  lemma HelperMakesHistory(s: State, a: HelperStep)
    requires DogOk(s) && CanHelper(s, a)
    ensures Adds(s, DoHelper(s, a), false, false, false, false, false, false)
  {
  }

  lemma OutsideMakesHistory(s: State, a: OutsideStep, start: nat)
    requires DogOk(s) && CanOutside(s, a, start)
    ensures Adds(s, DoOutside(s, a), false, false, a.Fatal? && s.shell.Waiting?,
                 a.Fatal? && s.shell.Naming?, false, false)
  {
    match a {
      case TermGroup(code) => GroupTermMakesHistory(s, code);
      case KillGroup => GroupKillMakesHistory(s);
      case _ => hide ShellOk;
    }
  }

  lemma GroupTermMakesHistory(s: State, code: Int64)
    ensures Adds(s, GroupTermed(s, code), false, false, false, false, false, false)
  {
  }

  lemma GroupKillMakesHistory(s: State)
    ensures Adds(s, GroupKilled(s), false, false, false, false, false, false)
  {
  }

  predicate MarksIt(a: Act) { a.Dog? && a.d.Marks? }
  predicate HuntsIt(a: Act) { a.Shell? && a.sh.Hunts? }
  predicate StartsIt(a: Act) { a.Shell? && a.sh.Starts? }
  predicate LaunchesIt(a: Act) { a.Shell? && a.sh.LaunchesDog? }
  predicate NamesIt(a: Act) { a.Shell? && a.sh.NamesDog? }
  predicate IsFatal(a: Act) { a.Outside? && a.o.Fatal? }
  predicate StartsIts(a: Act) { a.Shell? && a.sh.StartsMv? }
  predicate PlacesIt(a: Act) { a.Helper? && a.h.Places? }

  /** A deadly signal to the shell's mv, its own or the group's, TERM or KILL, from outside or the watchdog. */
  predicate EndsIts(a: Act) {
    || (a.Outside? && (a.o.EndMv? || a.o.TermGroup? || a.o.KillGroup?))
    || (a.Dog? && (a.d.Terms? || a.d.Kills?))
  }

  lemma ShellMoves(s: State, a: ShellStep)
    requires CanShell(s, a)
    ensures DoShell(s, a).lost <==> s.lost
    ensures DoShell(s, a).mover <==> a.StartsMv? || s.mover
  {
    if a.LaunchesDog? {
      LaunchMoves(s);
      hide *;
    }
  }

  lemma LaunchMoves(s: State)
    requires CanShell(s, LaunchesDog)
    ensures DoShell(s, LaunchesDog).lost == s.lost && DoShell(s, LaunchesDog).mover == s.mover
  {
    if s.capped {
    } else {
    }
  }

  lemma DogMoves(s: State, a: DogStep)
    ensures DoDog(s, a).lost <==> s.lost || (s.mover && (a.Terms? || a.Kills?))
    ensures DoDog(s, a).mover <==> s.mover && !a.Terms? && !a.Kills?
  {
    match a {
      case Terms =>
      case Kills =>
      case _ =>
    }
  }

  lemma HelperMoves(s: State, a: HelperStep)
    ensures DoHelper(s, a).lost <==> s.lost
    ensures DoHelper(s, a).mover <==> s.mover && !a.Places?
  {
    match a {
      case DogPlaces =>
      case _ =>
    }
  }

  lemma OutsideMoves(s: State, a: OutsideStep, start: nat)
    requires CanOutside(s, a, start)
    ensures DoOutside(s, a).lost <==> s.lost || (s.mover && EndsIts(Outside(a)))
    ensures DoOutside(s, a).mover <==> s.mover && !EndsIts(Outside(a))
  {
    match a {
      case TermGroup(_) =>
      case KillGroup =>
      case _ =>
    }
  }

  lemma StepMovesIt(s: State, a: Act, start: nat)
    requires Can(s, a, start)
    ensures Do(s, a).lost <==> s.lost || (s.mover && EndsIts(a))
    ensures Do(s, a).mover <==> StartsIts(a) || (s.mover && !PlacesIt(a) && !EndsIts(a))
  {
    hide CanShell, CanDog, CanHelper, CanOutside, DoShell, DoDog, DoHelper, DoOutside;
    match a {
      case Shell(sh) => ShellMoves(s, sh);
      case Dog(d) => DogMoves(s, d);
      case Helper(h) => HelperMoves(s, h);
      case Outside(o) => OutsideMoves(s, o, start);
    }
  }

  lemma StepMakesHistory(s: State, a: Act, start: nat)
    requires Inv(s) && Can(s, a, start)
    ensures Adds(s, Do(s, a), MarksIt(a), HuntsIt(a), IsFatal(a) && s.shell.Waiting?, IsFatal(a) && s.shell.Naming?,
                 StartsIt(a), LaunchesIt(a))
  {
    hide DogOk, ShellOk, HelpersOk, GroupOk, TextOk, CanShell, CanDog, CanHelper, CanOutside;
    hide DoShell, DoDog, DoHelper, DoOutside, Adds;
    match a {
      case Shell(sh) => ShellMakesHistory(s, sh);
      case Dog(d) => DogMakesHistory(s, d);
      case Helper(h) => HelperMakesHistory(s, h);
      case Outside(o) => OutsideMakesHistory(s, o, start);
    }
  }

  lemma {:induction false} RunKeepsInv(s: State, acts: seq<Act>, start: nat)
    requires Inv(s) && Allowed(s, acts, start)
    ensures Inv(After(s, acts))
    decreases acts
  {
    hide Inv, Can, Do;
    if acts != [] {
      StepKeepsInv(s, acts[0], start);
      RunKeepsInv(Do(s, acts[0]), acts[1..], start);
    }
  }

  lemma FreshIsOk(capped: bool)
    ensures Inv(Fresh(capped))
  {
  }

  lemma {:induction false} Splits(s: State, first: seq<Act>, rest: seq<Act>, start: nat)
    ensures Allowed(s, first + rest, start) <==> Allowed(s, first, start) && Allowed(After(s, first), rest, start)
    ensures After(s, first + rest) == After(After(s, first), rest)
    decreases first
  {
    hide Can, Do;
    if first == [] {
      assert first + rest == rest;
    } else {
      assert (first + rest)[1..] == first[1..] + rest;
      Splits(Do(s, first[0]), first[1..], rest, start);
    }
  }

  // ----- what a run's history says -----

  /** A fatal signal took the shell from its command: one that came after the start. */
  predicate CutIn(acts: seq<Act>, started: bool)
    decreases acts
  {
    acts != [] && ((started && IsFatal(acts[0])) || CutIn(acts[1..], started || StartsIt(acts[0])))
  }

  /** A fatal signal came between the watchdog's start and the note the shell makes of it. */
  predicate UnnamedIn(acts: seq<Act>, naming: bool)
    decreases acts
  {
    acts != []
    && ((naming && IsFatal(acts[0])) || UnnamedIn(acts[1..], LaunchesIt(acts[0]) || (naming && !NamesIt(acts[0]))))
  }

  /** The shell's mv was ended before it renamed. */
  predicate LostIn(acts: seq<Act>, moving: bool)
    decreases acts
  {
    acts != []
    && ((moving && EndsIts(acts[0]))
        || LostIn(acts[1..], StartsIts(acts[0]) || (moving && !PlacesIt(acts[0]) && !EndsIts(acts[0]))))
  }

  /** The states a fatal signal can hit, from where the run is. */
  lemma FatalHits(s: State, a: Act, start: nat)
    requires Inv(s) && Can(s, a, start) && IsFatal(a)
    ensures s.shell.Waiting? <==> !s.cmd.Unstarted?
  {
    hide DogOk, HelpersOk, GroupOk, TextOk;
  }

  /** What the invariant remembers is what the run's steps were. */
  lemma {:induction false} HistoryIsTheRun(s: State, acts: seq<Act>, start: nat)
    requires Inv(s) && Allowed(s, acts, start)
    ensures After(s, acts).marked <==> s.marked || Dog(Marks) in acts
    ensures After(s, acts).tookDog <==> s.tookDog || Shell(Hunts) in acts
    ensures After(s, acts).cut <==> s.cut || CutIn(acts, !s.cmd.Unstarted?)
    ensures After(s, acts).capped == s.capped
    ensures After(s, acts).dog.Absent? <==> s.dog.Absent? && !(s.capped && Shell(LaunchesDog) in acts)
    ensures After(s, acts).lost <==> s.lost || LostIn(acts, s.mover)
    decreases acts
  {
    hide Inv, Can, Do;
    if acts != [] {
      var a, t, rest := acts[0], Do(s, acts[0]), acts[1..];
      StepKeepsInv(s, a, start);
      StepMakesHistory(s, a, start);
      StepMovesIt(s, a, start);
      hide StartsIts, PlacesIt, EndsIts;
      if IsFatal(a) { FatalHits(s, a, start); }
      HistoryIsTheRun(t, rest, start);
      assert forall b :: b in acts <==> b == a || b in rest;
    }
  }

  lemma ShellNames(s: State, a: ShellStep)
    requires ShellOk(s) && CanShell(s, a) && s.capped
    ensures DoShell(s, a).shell.Naming? <==> a.LaunchesDog?
    ensures s.shell.Naming? ==> a.NamesDog?
  {
    match a {
      case LaunchesDog =>
      case NamesDog =>
      case Tests =>
      case _ =>
    }
  }

  predicate InScript(h: Shell) { h.Boot? || Interruptible(h) }

  lemma DogLeavesTheShell(s: State, d: DogStep)
    requires CanDog(s, d)
    ensures InScript(DoDog(s, d).shell) ==> DoDog(s, d).shell == s.shell
  {
    match d {
      case Terms =>
      case Kills =>
      case _ =>
    }
  }

  lemma OutsideLeavesTheShell(s: State, o: OutsideStep, start: nat)
    requires CanOutside(s, o, start) && !o.Fatal?
    ensures InScript(DoOutside(s, o).shell) ==> DoOutside(s, o).shell == s.shell
  {
    match o {
      case TermGroup(_) =>
      case KillGroup =>
      case _ =>
    }
  }

  lemma HelperLeavesTheShell(s: State, h: HelperStep)
    ensures DoHelper(s, h).shell == s.shell
  {
    match h {
      case DogPlaces =>
      case _ =>
    }
  }

  lemma NamingOnward(s: State, a: Act, naming: bool, start: nat)
    requires Inv(s) && Can(s, a, start) && s.capped && (InScript(s.shell) ==> (naming <==> s.shell.Naming?))
    ensures var t, onward := Do(s, a).shell, LaunchesIt(a) || (naming && !NamesIt(a));
      InScript(t) ==> (onward <==> t.Naming?)
  {
    hide DogOk, HelpersOk, GroupOk, TextOk, DoDog, DoHelper, DoOutside, CanDog, CanHelper, CanOutside;
    match a {
      case Shell(sh) =>
        ShellNames(s, sh);
        InScriptBefore(s, sh);
        hide DoShell, CanShell;
      case Dog(d) => DogLeavesTheShell(s, d);
      case Helper(h) => HelperLeavesTheShell(s, h);
      case Outside(o) =>
        if IsFatal(a) { FatalLeaves(s, o, start); } else { OutsideLeavesTheShell(s, o, start); }
    }
  }

  lemma InScriptBefore(s: State, a: ShellStep)
    requires CanShell(s, a)
    ensures InScript(DoShell(s, a).shell) ==> InScript(s.shell)
  {
    match a {
      case Tests =>
      case _ =>
    }
  }

  lemma FatalLeaves(s: State, o: OutsideStep, start: nat)
    requires CanOutside(s, o, start) && o.Fatal?
    ensures !InScript(DoOutside(s, o).shell)
  {
  }

  /** And so of the signal that came before the watchdog was noted. */
  lemma {:induction false} UnnamedIsTheRun(s: State, acts: seq<Act>, naming: bool, start: nat)
    requires Inv(s) && Allowed(s, acts, start) && s.capped && (InScript(s.shell) ==> (naming <==> s.shell.Naming?))
    ensures After(s, acts).unnamed <==> s.unnamed || UnnamedIn(acts, naming)
    decreases acts
  {
    hide Inv, Do, Can;
    if acts != [] {
      var a, t, rest := acts[0], Do(s, acts[0]), acts[1..];
      StepKeepsInv(s, a, start);
      StepMakesHistory(s, a, start);
      NamingOnward(s, a, naming, start);
      if IsFatal(a) { FatalIsFelt(s, a, start); }
      UnnamedIsTheRun(t, rest, LaunchesIt(a) || (naming && !NamesIt(a)), start);
    }
  }

  lemma FatalIsFelt(s: State, a: Act, start: nat)
    requires Can(s, a, start) && IsFatal(a)
    ensures Interruptible(s.shell)
  {
  }

  // ----- what a receipt says -----

  /** What a run from the start comes to. */
  lemma FromTheStart(capped: bool, acts: seq<Act>, start: nat)
    requires Allowed(Fresh(capped), acts, start)
    ensures var s := After(Fresh(capped), acts);
      && Inv(s) && s.capped == capped
      && (s.marked <==> Dog(Marks) in acts)
      && (s.tookDog <==> Shell(Hunts) in acts)
      && (s.cut <==> CutIn(acts, false))
      && (s.unnamed <==> capped && UnnamedIn(acts, false))
      && (s.lost <==> LostIn(acts, false))
      && (s.dog.Absent? <==> !(capped && Shell(LaunchesDog) in acts))
  {
    hide Inv, Can, Do, Allowed, After;
    FreshIsOk(capped);
    RunKeepsInv(Fresh(capped), acts, start);
    HistoryIsTheRun(Fresh(capped), acts, start);
    if capped { UnnamedIsTheRun(Fresh(capped), acts, false, start); } else { NeverUnnamed(After(Fresh(capped), acts)); }
  }

  lemma NeverUnnamed(s: State)
    requires Inv(s) && !s.capped
    ensures !s.unnamed
  {
  }

  /**
   When there is a receipt: the command is gone, unless a fatal signal took the shell from it. It
   says timeout, and then 124, exactly when a watchdog was launched and the shell never took it
   down. Without that line it is the command's own code, unless such a signal came, and no watchdog
   will ever act again. All but the first unless one came before the shell noted its watchdog.
   */
  lemma ReceiptTellsTheEnd(capped: bool, acts: seq<Act>, start: nat)
    requires Allowed(Fresh(capped), acts, start)
    requires After(Fresh(capped), acts).receipt.Some?
    ensures var s := After(Fresh(capped), acts); var r := s.receipt.value;
      && (s.cmd.Running? ==> CutIn(acts, false))
      && (r.timeout ==> r == TIMED_OUT && Dog(Marks) in acts)
      && (!r.timeout && s.cmd.Gone? && !CutIn(acts, false) ==> r.code == s.cmd.code)
      && (!(capped && UnnamedIn(acts, false)) ==>
            && (r.timeout <==> capped && Shell(LaunchesDog) in acts && Shell(Hunts) !in acts)
            && (!r.timeout ==> !DogAlive(s.dog) && !s.dogMover))
  {
    FromTheStart(capped, acts, start);
    hide Allowed, After, Can, Do, CutIn, UnnamedIn, HelpersOk, GroupOk, ShellOk;
  }

  /** The watchdog signals the group only after it has set its mark. */
  lemma MarkComesBeforeSignal(capped: bool, acts: seq<Act>, k: nat, start: nat)
    requires Allowed(Fresh(capped), acts, start)
    requires k < |acts| && (acts[k] == Dog(Terms) || acts[k] == Dog(Kills))
    ensures Dog(Marks) in acts[..k]
  {
    assert acts == acts[..k] + acts[k..];
    Splits(Fresh(capped), acts[..k], acts[k..], start);
    FromTheStart(capped, acts[..k], start);
    SignalNeedsMark(After(Fresh(capped), acts[..k]), acts[k], start);
  }

  lemma SignalNeedsMark(s: State, a: Act, start: nat)
    requires Inv(s) && Can(s, a, start) && (a == Dog(Terms) || a == Dog(Kills))
    ensures s.marked
  {
    hide ShellOk, HelpersOk, GroupOk, TextOk;
  }

  // ----- a receipt beside a running command -----

  /** The receipt is there, or the shell or its mv is on the way to it. */
  predicate Pressing(s: State) {
    s.receipt.Some? || s.mover || s.shell.Testing? || s.shell.Hunting? || s.shell.Writing? || s.shell.Placing?
  }

  /** The shell was taken from a command that runs on, and sees to its receipt. */
  predicate RunsPast(s: State) { s.cut && s.cmd.Running? && Pressing(s) }

  lemma ShellNotSooner(s: State, a: ShellStep)
    requires Inv(s) && CanShell(s, a) && RunsPast(DoShell(s, a))
    ensures RunsPast(s)
  {
    hide DogOk, HelpersOk, GroupOk, TextOk;
    match a {
      case Tests =>
      case _ =>
    }
  }

  lemma DogNotSooner(s: State, a: DogStep)
    requires Inv(s) && CanDog(s, a) && RunsPast(DoDog(s, a))
    ensures RunsPast(s)
  {
    hide DogOk, HelpersOk, TextOk, GroupOk;
    match a {
      case Terms =>
      case Kills =>
      case _ =>
    }
  }

  lemma HelperNotSooner(s: State, a: HelperStep)
    requires Inv(s) && CanHelper(s, a) && RunsPast(DoHelper(s, a))
    ensures RunsPast(s)
  {
    hide DogOk, HelpersOk, TextOk;
    match a {
      case Places =>
      case DogPlaces =>
      case _ =>
    }
  }

  lemma OutsideNotSooner(s: State, a: OutsideStep, start: nat)
    requires Inv(s) && CanOutside(s, a, start) && !a.Fatal? && RunsPast(DoOutside(s, a))
    ensures RunsPast(s)
  {
    hide DogOk, HelpersOk, TextOk, GroupOk;
    match a {
      case TermGroup(_) =>
      case KillGroup =>
      case _ =>
    }
  }

  lemma NotSooner(s: State, a: Act, start: nat)
    requires Inv(s) && Can(s, a, start) && !IsFatal(a) && RunsPast(Do(s, a))
    ensures RunsPast(s)
  {
    hide Inv, RunsPast, DoShell, DoDog, DoHelper, DoOutside, CanDog, CanHelper, CanOutside;
    match a {
      case Shell(sh) => ShellNotSooner(s, sh);
      case Dog(d) => DogNotSooner(s, d);
      case Helper(h) => HelperNotSooner(s, h);
      case Outside(o) => OutsideNotSooner(s, o, start);
    }
  }

  predicate NoFatal(acts: seq<Act>) { forall i :: 0 <= i < |acts| ==> !IsFatal(acts[i]) }

  lemma {:induction false} WasPast(s: State, acts: seq<Act>, start: nat)
    requires Inv(s) && Allowed(s, acts, start) && NoFatal(acts) && RunsPast(After(s, acts))
    ensures RunsPast(s)
    decreases acts
  {
    hide Inv, Can, Do, RunsPast, IsFatal;
    if acts != [] {
      StepKeepsInv(s, acts[0], start);
      assert !IsFatal(acts[0]);
      assert forall i :: 0 <= i < |acts[1..]| ==> acts[1..][i] == acts[i + 1];
      WasPast(Do(s, acts[0]), acts[1..], start);
      NotSooner(s, acts[0], start);
    }
  }

  /** What is left for the shell to do before its receipt. */
  function StepsToReceipt(s: State): nat {
    if s.receipt.Some? then 0
    else if s.mover then 1
    else
      match s.shell
      case Testing(_) => 5 case Hunting(_) => 4 case Writing(_) => 3 case Placing => 2 case _ => 0
  }

  function NextToReceipt(s: State): Act {
    if s.mover then Helper(Places)
    else
      match s.shell
      case Testing(_) => Shell(Tests) case Hunting(_) => Shell(Hunts)
      case Writing(_) => Shell(Writes) case _ => Shell(StartsMv)
  }

  lemma PlacesIsNearer(s: State)
    requires RunsPast(s) && s.mover && s.receipt.None? && s.tmp.Some?
    ensures var t := DoHelper(s, Places); RunsPast(t) && StepsToReceipt(t) == 0
  {
  }

  lemma ShellIsNearer(s: State, a: ShellStep)
    requires RunsPast(s) && !s.mover && s.receipt.None? && CanShell(s, a) && NextToReceipt(s) == Shell(a)
    ensures RunsPast(DoShell(s, a)) && StepsToReceipt(DoShell(s, a)) < StepsToReceipt(s)
  {
    match a {
      case Tests =>
      case Hunts =>
      case Writes =>
      case StartsMv =>
      case _ =>
    }
  }

  lemma MoverHasText(s: State)
    requires Inv(s) && s.mover
    ensures s.tmp.Some?
  {
    hide DogOk, ShellOk, GroupOk, TextOk;
  }

  lemma NearerTheReceipt(s: State, start: nat)
    requires Inv(s) && RunsPast(s) && s.receipt.None?
    ensures var a := NextToReceipt(s);
      Can(s, a, start) && !IsFatal(a) && RunsPast(Do(s, a)) && StepsToReceipt(Do(s, a)) < StepsToReceipt(s)
  {
    hide Inv, DoShell, DoHelper, StepsToReceipt;
    if s.mover {
      MoverHasText(s);
      PlacesIsNearer(s);
      hide RunsPast;
      assert StepsToReceipt(s) == 1 by { StepsOfMover(s); }
    } else {
      ShellIsNearer(s, NextToReceipt(s).sh);
    }
  }

  lemma StepsOfMover(s: State)
    requires s.mover && s.receipt.None?
    ensures StepsToReceipt(s) == 1
  {
  }

  lemma {:induction false} ToTheReceipt(s: State, start: nat) returns (acts: seq<Act>)
    requires Inv(s) && RunsPast(s)
    ensures Allowed(s, acts, start) && NoFatal(acts)
    ensures After(s, acts).receipt.Some? && After(s, acts).cmd.Running?
    decreases StepsToReceipt(s)
  {
    hide Inv, Can, Do, IsFatal, StepsToReceipt, NextToReceipt;
    if s.receipt.Some? {
      acts := [];
    } else {
      var a := NextToReceipt(s);
      NearerTheReceipt(s, start);
      StepKeepsInv(s, a, start);
      var rest := ToTheReceipt(Do(s, a), start);
      acts := [a] + rest;
      PutFirst(s, a, rest, start);
    }
  }

  lemma PutFirst(s: State, a: Act, acts: seq<Act>, start: nat)
    requires Can(s, a, start) && Allowed(Do(s, a), acts, start)
    ensures Allowed(s, [a] + acts, start) && After(s, [a] + acts) == After(Do(s, a), acts)
  {
    assert ([a] + acts)[1..] == acts;
  }

  /**
   From anywhere in any run, and with no further fatal signal, there can come to be a receipt beside
   the running command if and only if such a signal took the shell from that command, which runs on,
   and the shell, or its mv, has not died since short of the receipt.
   */
  lemma OverlapIff(capped: bool, acts: seq<Act>, start: nat)
    requires Allowed(Fresh(capped), acts, start)
    ensures var s := After(Fresh(capped), acts);
      (exists more :: Allowed(s, more, start) && NoFatal(more)
                      && After(s, more).receipt.Some? && After(s, more).cmd.Running?)
        <==> CutIn(acts, false) && s.cmd.Running? && Pressing(s)
  {
    FromTheStart(capped, acts, start);
    hide Inv, Can, Do, NoFatal, Pressing;
    var s := After(Fresh(capped), acts);
    if more :| Allowed(s, more, start) && NoFatal(more) && After(s, more).receipt.Some? && After(s, more).cmd.Running? {
      RunKeepsInv(s, more, start);
      BesideIsPast(After(s, more));
      WasPast(s, more, start);
    }
    if RunsPast(s) { var more := ToTheReceipt(s, start); }
  }

  lemma BesideIsPast(s: State)
    requires Inv(s) && s.receipt.Some? && s.cmd.Running?
    ensures RunsPast(s)
  {
  }
}
