/**
 Requests to the supervisor: any number of askers and supervisors on one directory, talking
 only through the files of each request, one rename, write or removal at a time, and each
 liable to die between any two.
 */
module ControlProtocol {
  type Id = string

  datatype Action = RestartBot(name: string) | RestartSupervisor(rollback: bool)

  /** A request's file: an action, or something this version cannot read. */
  datatype Request = Readable(action: Action) | Unreadable

  datatype Code = Restarted | Accepted | UnknownBot | StillRunning | Failed | Expired | Interrupted | Unknown

  datatype Answer = Answer(code: Code, detail: string)

  const INTERRUPTED := Answer(Interrupted, "the supervisor stopped before it finished")

  datatype Asker =
    | Waiting                   // for its request to be taken
    | Untaken                   // withdrew it
    | Awaiting                  // an answer
    | Got(answer: Answer)       // read one, its file still to be removed
    | Collected(answer: Answer)
    | Unanswered
    | Dead

  datatype Phase =
    // abandon: at supervisor start over every taken file, in a sweep over old ones
    | Abandoning(todo: seq<Id>, sweep: bool)
    | AbandonAnswering(todo: seq<Id>, sweep: bool)
    | AbandonDropping(todo: seq<Id>, sweep: bool)
    | Resting
    // serve_once
    | Listing
    | Taking(todo: seq<Id>)
    | Choosing
    | Reading(id: Id)
    | Handling(id: Id, action: Action)
    | Answering(id: Id, answer: Answer)
    | Dropping(id: Id)
    | Clearing

  datatype Supervisor = Supervisor(phase: Phase, queue: seq<Id>)

  /** The directory, the askers, and what has happened so far. */
  datatype Shared = Shared(
    requests: map<Id, Request>,   // <id>.json
    taken: map<Id, Request>,      // <id>.taken
    answers: map<Id, Answer>,     // <id>.answer.json
    askers: map<Id, Asker>,
    takenBy: map<Id, nat>,        // history: who renamed it away
    carried: seq<Id>,             // history: what was carried out, in order
    answered: set<Id>,            // history: what was ever answered
    interrupted: set<Id>,         // history: what was answered for one that did not
    said: map<Id, Answer>)        // history: what the one that took it wrote

  /** A request carried out: what was done, and what the handler gave back. */
  datatype Deed = Deed(action: Action, answer: Answer)

  /** What no file shows: what was asked, how each taken request was found, and what the handler did. */
  datatype Book = Book(
    asked: map<Id, Request>,      // as submitted
    late: set<Id>,                // read past its time
    gone: set<Id>,                // its file was not there to be read
    deeds: map<Id, Deed>)

  /** The supervisors alive, by the order they were started in. */
  datatype State = State(f: Shared, sups: map<nat, Supervisor>, born: nat, book: Book)

  datatype Ask = Submits(request: Request) | SeesTaken | Withdraws | Reads | Removes | GivesUp | Dies

  datatype Move =
    | Looks | Interrupts | Clears | Begins | Lists(todo: seq<Id>) | Takes | Chooses(left: seq<Id>)
    | ReadsTaken(expired: bool) | CarriesOut(answer: Answer) | Answers | Drops | SweepsAnswer(id: Id) | Ends

  datatype Act = Asks(id: Id, ask: Ask) | Starts(todo: seq<Id>) | Moves(k: nat, move: Move) | Crashes(k: nat)

  const NOTHING := Shared(map[], map[], map[], map[], map[], [], {}, {}, map[])
  const EMPTY := State(NOTHING, map[], 0, Book(map[], {}, {}, map[]))

  predicate Distinct(ids: seq<Id>) {
    forall i, j :: 0 <= i < j < |ids| ==> ids[i] != ids[j]
  }

  /** What reading a directory gives: every one of the names, once, in some order. */
  predicate IsListing(ids: seq<Id>, keys: set<Id>) {
    Distinct(ids) && (forall i :: 0 <= i < |ids| ==> ids[i] in keys) && forall id :: id in keys ==> id in ids
  }

  // ----- askers -----

  predicate CanAsk(f: Shared, id: Id, x: Ask) {
    if x.Submits? then id !in f.askers
    else
      && id in f.askers
      && var at := f.askers[id];
         match x
         case SeesTaken => at.Waiting? && id !in f.requests
         case Withdraws => at.Waiting?
         case Reads => at.Awaiting? && id in f.answers
         case Removes => at.Got?
         case GivesUp => at.Awaiting?
         case _ => at.Waiting? || at.Awaiting? || at.Got?
  }

  function Asked(f: Shared, id: Id, x: Ask): Shared
    requires CanAsk(f, id, x)
  {
    match x
    case Submits(r) => f.(requests := f.requests[id := r], askers := f.askers[id := Waiting])
    case SeesTaken => f.(askers := f.askers[id := Awaiting])
    case Withdraws =>
      if id in f.requests then f.(requests := f.requests - {id}, askers := f.askers[id := Untaken])
      else f.(askers := f.askers[id := Awaiting])
    case Reads => f.(askers := f.askers[id := Got(f.answers[id])])
    case Removes => f.(answers := f.answers - {id}, askers := f.askers[id := Collected(f.askers[id].answer)])
    case GivesUp => f.(askers := f.askers[id := Unanswered])
    case Dies => f.(askers := f.askers[id := Dead])
  }

  // ----- supervisors -----

  predicate CanMove(f: Shared, p: Supervisor, m: Move) {
    match m
    case Looks => p.phase.Abandoning?
    case Interrupts => p.phase.AbandonAnswering? && p.phase.todo != []
    case Clears => p.phase.AbandonDropping? && p.phase.todo != []
    case Begins => p.phase.Resting?
    case Lists(todo) => p.phase.Listing? && IsListing(todo, f.requests.Keys)
    case Takes => p.phase.Taking?
    case Chooses(left) => p.phase.Choosing? && Distinct(left) && forall i :: 0 <= i < |left| ==> left[i] in f.taken
    case ReadsTaken(_) => p.phase.Reading?
    case CarriesOut(_) => p.phase.Handling?
    case Answers => p.phase.Answering?
    case Drops => p.phase.Dropping?
    case SweepsAnswer(_) => p.phase.Clearing?
    case Ends => p.phase.Clearing?
  }

  /** The rename that takes a request, the one of supervisor `k` going through. */
  function TakenFrom(f: Shared, k: nat, id: Id): Shared
    requires id in f.requests
  {
    f.(requests := f.requests - {id}, taken := f.taken[id := f.requests[id]], takenBy := f.takenBy[id := k])
  }

  function AnsweredBy(f: Shared, id: Id, answer: Answer): Shared {
    f.(answers := f.answers[id := answer], answered := f.answered + {id}, said := f.said[id := answer])
  }

  function AnsweredFor(f: Shared, id: Id): Shared {
    f.(answers := f.answers[id := INTERRUPTED], answered := f.answered + {id}, interrupted := f.interrupted + {id})
  }

  function Dropped(f: Shared, id: Id): Shared { f.(taken := f.taken - {id}) }

  function Swept(f: Shared, id: Id): Shared { f.(answers := f.answers - {id}) }

  function CarriedOut(f: Shared, id: Id): Shared { f.(carried := f.carried + [id]) }

  /** What the move does to the directory. */
  function Left(f: Shared, k: nat, p: Supervisor, m: Move): Shared
    requires CanMove(f, p, m)
  {
    match m
    case Interrupts => AnsweredFor(f, p.phase.todo[0])
    case Clears => Dropped(f, p.phase.todo[0])
    case Takes =>
      if p.phase.todo == [] || p.phase.todo[0] !in f.requests then f else TakenFrom(f, k, p.phase.todo[0])
    case CarriesOut(_) => CarriedOut(f, p.phase.id)
    case Answers => AnsweredBy(f, p.phase.id, p.phase.answer)
    case Drops => Dropped(f, p.phase.id)
    case SweepsAnswer(id) => Swept(f, id)
    case _ => f
  }

  /** Where the move leaves the supervisor. */
  function Moved(f: Shared, p: Supervisor, m: Move): Supervisor
    requires CanMove(f, p, m)
  {
    match m
    case Looks =>
      var todo, sweep := p.phase.todo, p.phase.sweep;
      p.(phase := if todo == [] then (if sweep then Clearing else Resting)
                  else if todo[0] in f.answers then AbandonDropping(todo, sweep)
                  else AbandonAnswering(todo, sweep))
    case Interrupts => p.(phase := AbandonDropping(p.phase.todo, p.phase.sweep))
    case Clears => p.(phase := Abandoning(p.phase.todo[1..], p.phase.sweep))
    case Begins => p.(phase := Listing)
    case Lists(todo) => p.(phase := Taking(todo))
    case Takes =>
      var todo := p.phase.todo;
      if todo == [] then p.(phase := Choosing)
      else Supervisor(Taking(todo[1..]), if todo[0] in f.requests then p.queue + [todo[0]] else p.queue)
    case Chooses(left) =>
      if p.queue == [] then p.(phase := Abandoning(left, true)) else Supervisor(Reading(p.queue[0]), p.queue[1..])
    case ReadsTaken(expired) =>
      var id := p.phase.id;
      p.(phase := if id !in f.taken || f.taken[id].Unreadable? then
                    Answering(id, Answer(Unknown, "a request this version of mafold can't read"))
                  else if expired then Answering(id, Answer(Expired, ""))
                  else Handling(id, f.taken[id].action))
    case CarriesOut(answer) => p.(phase := Answering(p.phase.id, answer))
    case Answers => p.(phase := Dropping(p.phase.id))
    case Drops => p.(phase := Listing)
    case SweepsAnswer(_) => p
    case Ends => p.(phase := Resting)
  }

  // ----- runs -----

  predicate Can(s: State, a: Act) {
    match a
    case Asks(id, x) => CanAsk(s.f, id, x)
    case Starts(todo) => IsListing(todo, s.f.taken.Keys)
    case Moves(k, m) => k in s.sups && CanMove(s.f, s.sups[k], m)
    case Crashes(k) => k in s.sups
  }

  /** What an act adds to the book: only what was asked, how it was read, and what the handler did. */
  function Noted(s: State, a: Act): Book
    requires Can(s, a)
  {
    var b := s.book;
    match a
    case Asks(id, Submits(r)) => b.(asked := b.asked[id := r])
    case Moves(k, ReadsTaken(expired)) =>
      var id := s.sups[k].phase.id;
      b.(late := if expired then b.late + {id} else b.late, gone := if id in s.f.taken then b.gone else b.gone + {id})
    case Moves(k, CarriesOut(answer)) =>
      var p := s.sups[k].phase;
      b.(deeds := b.deeds[p.id := Deed(p.action, answer)])
    case _ => b
  }

  function Do(s: State, a: Act): State
    requires Can(s, a)
  {
    match a
    case Asks(id, x) => s.(f := Asked(s.f, id, x), book := Noted(s, a))
    case Starts(todo) => s.(sups := s.sups[s.born := Supervisor(Abandoning(todo, false), [])], born := s.born + 1)
    case Moves(k, m) =>
      s.(f := Left(s.f, k, s.sups[k], m), sups := s.sups[k := Moved(s.f, s.sups[k], m)], book := Noted(s, a))
    case Crashes(k) => s.(sups := s.sups - {k})
  }

  predicate Runs(s: State, acts: seq<Act>)
    decreases acts
  {
    acts == [] || (Can(s, acts[0]) && Runs(Do(s, acts[0]), acts[1..]))
  }

  function After(s: State, acts: seq<Act>): State
    requires Runs(s, acts)
    decreases acts
  {
    if acts == [] then s else After(Do(s, acts[0]), acts[1..])
  }

  // ----- any number of supervisors -----

  /** What a supervisor has taken and may still carry out. */
  function Pending(p: Supervisor): seq<Id> {
    (if p.phase.Reading? || p.phase.Handling? then [p.phase.id] else []) + p.queue
  }

  predicate PendingOk(f: Shared, k: nat, pending: seq<Id>) {
    && Distinct(pending)
    && forall i :: 0 <= i < |pending| ==>
         pending[i] in f.takenBy && f.takenBy[pending[i]] == k && pending[i] !in f.carried
  }

  predicate PhaseOk(f: Shared, p: Phase) {
    && (p.Dropping? ==> p.id in f.answered)
    && (p.AbandonDropping? || p.AbandonAnswering? ==> p.todo != [])
    && (p.AbandonDropping? ==> p.todo[0] in f.answered)
  }

  predicate SupOk(f: Shared, k: nat, p: Supervisor) { PendingOk(f, k, Pending(p)) && PhaseOk(f, p.phase) }

  predicate FilesOk(f: Shared) {
    && (forall id :: id in f.takenBy ==> id !in f.requests && id in f.askers)
    && (forall id :: id in f.requests ==> id in f.askers)
    && (forall id :: id in f.taken ==> id in f.takenBy)
    && (forall id :: id in f.askers && f.askers[id].Untaken? ==> id !in f.requests && id !in f.takenBy)
    && (forall id :: id in f.answers ==> id in f.answered)
    && Distinct(f.carried)
    && (forall id :: id in f.carried ==> id in f.takenBy)
    // A taken request is never forgotten: its file goes only once there was an answer.
    && (forall id :: id in f.takenBy ==> id in f.taken || id in f.answered)
  }

  /** What every step keeps, however many supervisors there are. */
  predicate Inv(s: State) {
    FilesOk(s.f) && forall k :: k in s.sups ==> k < s.born && SupOk(s.f, k, s.sups[k])
  }

  /** Nothing another supervisor relies on is lost, and only `k` carries anything out. */
  predicate Grows(f: Shared, g: Shared, k: nat) {
    && f.answered <= g.answered
    && (forall id :: id in f.takenBy ==> id in g.takenBy && g.takenBy[id] == f.takenBy[id])
    && (forall id :: id in g.carried && id !in f.carried ==> id in g.takenBy && g.takenBy[id] == k)
  }

  lemma SubmittingKeepsFiles(f: Shared, id: Id, r: Request)
    requires FilesOk(f) && CanAsk(f, id, Submits(r))
    ensures FilesOk(Asked(f, id, Submits(r)))
  {
    hide Distinct;
  }

  lemma WithdrawingKeepsFiles(f: Shared, id: Id)
    requires FilesOk(f) && CanAsk(f, id, Withdraws)
    ensures FilesOk(Asked(f, id, Withdraws))
  {
    hide Distinct;
  }

  lemma WaitingKeepsFiles(f: Shared, id: Id, x: Ask)
    requires FilesOk(f) && CanAsk(f, id, x) && !x.Submits? && !x.Withdraws?
    ensures FilesOk(Asked(f, id, x))
  {
    hide Distinct;
  }

  lemma AskingKeepsFiles(f: Shared, id: Id, x: Ask)
    requires FilesOk(f) && CanAsk(f, id, x)
    ensures var g := Asked(f, id, x);
      FilesOk(g) && g.answered == f.answered && g.takenBy == f.takenBy && g.carried == f.carried && g.taken == f.taken
  {
    hide FilesOk, CanAsk;
    match x {
      case Submits(r) => SubmittingKeepsFiles(f, id, r);
      case Withdraws => WithdrawingKeepsFiles(f, id);
      case _ => WaitingKeepsFiles(f, id, x);
    }
  }

  lemma TakingKeepsFiles(f: Shared, k: nat, id: Id)
    requires FilesOk(f) && id in f.requests
    ensures FilesOk(TakenFrom(f, k, id)) && Grows(f, TakenFrom(f, k, id), k)
  {
    hide Distinct;
  }

  lemma AnsweringKeepsFiles(f: Shared, k: nat, id: Id, a: Answer)
    requires FilesOk(f)
    ensures FilesOk(AnsweredBy(f, id, a)) && Grows(f, AnsweredBy(f, id, a), k)
    ensures FilesOk(AnsweredFor(f, id)) && Grows(f, AnsweredFor(f, id), k)
  {
    hide Distinct;
  }

  lemma DroppingKeepsFiles(f: Shared, k: nat, id: Id)
    requires FilesOk(f) && id in f.answered
    ensures FilesOk(Dropped(f, id)) && Grows(f, Dropped(f, id), k)
  {
    hide Distinct;
  }

  lemma SweepingKeepsFiles(f: Shared, k: nat, id: Id)
    requires FilesOk(f)
    ensures FilesOk(Swept(f, id)) && Grows(f, Swept(f, id), k)
  {
    hide Distinct;
  }

  lemma CarryingKeepsFiles(f: Shared, k: nat, id: Id)
    requires FilesOk(f) && id in f.takenBy && f.takenBy[id] == k && id !in f.carried
    ensures FilesOk(CarriedOut(f, id)) && Grows(f, CarriedOut(f, id), k)
  {
  }

  lemma SameGrows(f: Shared, k: nat)
    ensures Grows(f, f, k)
  {
  }

  lemma MovingKeepsFiles(f: Shared, k: nat, p: Supervisor, m: Move)
    requires FilesOk(f) && SupOk(f, k, p) && CanMove(f, p, m)
    ensures FilesOk(Left(f, k, p, m)) && Grows(f, Left(f, k, p, m), k)
  {
    hide IsListing, Distinct, FilesOk, Grows, TakenFrom, AnsweredBy, AnsweredFor, Dropped, Swept, CarriedOut;
    match m {
      case CarriesOut(_) =>
        assert Pending(p)[0] == p.phase.id;
        CarryingKeepsFiles(f, k, p.phase.id);
      case Takes =>
        hide SupOk;
        SameGrows(f, k);
        if p.phase.todo != [] && p.phase.todo[0] in f.requests { TakingKeepsFiles(f, k, p.phase.todo[0]); }
      case Interrupts => hide SupOk; AnsweringKeepsFiles(f, k, p.phase.todo[0], INTERRUPTED);
      case Answers => hide SupOk; AnsweringKeepsFiles(f, k, p.phase.id, p.phase.answer);
      case Clears => hide PendingOk; DroppingKeepsFiles(f, k, p.phase.todo[0]);
      case Drops => hide PendingOk; DroppingKeepsFiles(f, k, p.phase.id);
      case SweepsAnswer(id) => hide SupOk; SweepingKeepsFiles(f, k, id);
      case _ => hide SupOk; SameGrows(f, k);
    }
  }

  lemma PendingStays(f: Shared, g: Shared, k: nat, pending: seq<Id>, left: seq<Id>)
    requires PendingOk(f, k, pending) && Grows(f, g, k) && g.carried == f.carried
    requires left == pending || (pending != [] && left == pending[1..])
    ensures PendingOk(g, k, left)
  {
  }

  lemma TakingStaysOk(f: Shared, k: nat, p: Supervisor)
    requires FilesOk(f) && PendingOk(f, k, p.queue) && CanMove(f, p, Takes)
    ensures PendingOk(Left(f, k, p, Takes), k, Moved(f, p, Takes).queue)
  {
  }

  lemma PhaseStaysOk(f: Shared, k: nat, p: Supervisor, m: Move)
    requires PhaseOk(f, p.phase) && CanMove(f, p, m) && f.answered <= Left(f, k, p, m).answered
    requires forall id :: id in f.answers ==> id in f.answered
    ensures PhaseOk(Left(f, k, p, m), Moved(f, p, m).phase)
  {
    hide IsListing, Distinct, TakenFrom, Dropped, Swept, CarriedOut;
    match m {
      case Looks =>
      case Interrupts =>
      case Answers =>
      case _ => hide AnsweredBy, AnsweredFor;
    }
  }

  lemma PendingStaysOk(f: Shared, k: nat, p: Supervisor, m: Move)
    requires FilesOk(f) && PendingOk(f, k, Pending(p)) && CanMove(f, p, m) && Grows(f, Left(f, k, p, m), k)
    ensures PendingOk(Left(f, k, p, m), k, Pending(Moved(f, p, m)))
  {
    hide IsListing, FilesOk, Distinct, PendingOk, Grows;
    var g, q := Left(f, k, p, m), Moved(f, p, m);
    match m {
      case Takes =>
        assert Pending(p) == p.queue;
        TakingStaysOk(f, k, p);
        assert Pending(q) == q.queue;
      case CarriesOut(_) =>
        assert Pending(q) == p.queue == Pending(p)[1..];
        CarriedLeaves(f, k, p, m);
      case Chooses(_) =>
        assert Pending(q) == p.queue == Pending(p);
        PendingStays(f, g, k, Pending(p), Pending(q));
      case ReadsTaken(_) =>
        assert Pending(p)[1..] == p.queue;
        assert Pending(q) == Pending(p) || Pending(q) == p.queue;
        PendingStays(f, g, k, Pending(p), Pending(q));
      case _ =>
        assert Pending(q) == Pending(p);
        PendingStays(f, g, k, Pending(p), Pending(q));
    }
  }

  lemma MovingStaysOk(f: Shared, k: nat, p: Supervisor, m: Move)
    requires FilesOk(f) && SupOk(f, k, p) && CanMove(f, p, m) && Grows(f, Left(f, k, p, m), k)
    requires forall id :: id in f.answers ==> id in f.answered
    ensures SupOk(Left(f, k, p, m), k, Moved(f, p, m))
  {
    PendingStaysOk(f, k, p, m);
    PhaseStaysOk(f, k, p, m);
    hide FilesOk, PendingOk, PhaseOk, CanMove, Left, Moved;
  }

  lemma CarriedLeaves(f: Shared, k: nat, p: Supervisor, m: Move)
    requires m.CarriesOut? && CanMove(f, p, m) && PendingOk(f, k, Pending(p))
    ensures PendingOk(Left(f, k, p, m), k, Pending(p)[1..])
  {
    assert Pending(p)[0] == p.phase.id;
  }

  lemma UnmovedStaysOk(f: Shared, g: Shared, k: nat, j: nat, p: Supervisor)
    requires SupOk(f, j, p) && Grows(f, g, k) && j != k
    ensures SupOk(g, j, p)
  {
  }

  /** Whoever takes it, asker or supervisor, a step keeps the invariant; so does a crash. */
  lemma StepKeepsInv(s: State, a: Act)
    requires Inv(s) && Can(s, a)
    ensures Inv(Do(s, a))
  {
    hide FilesOk, SupOk, CanAsk, CanMove, Asked, Left, Moved, IsListing;
    var t := Do(s, a);
    match a {
      case Asks(id, x) =>
        AskingKeepsFiles(s.f, id, x);
        forall j | j in t.sups ensures SupOk(t.f, j, t.sups[j]) { UnmovedStaysOk(s.f, t.f, s.born, j, s.sups[j]); }
      case Starts(todo) =>
        assert SupOk(t.f, s.born, t.sups[s.born]) by { FreshIsOk(t.f, s.born, todo); }
      case Moves(k, m) =>
        MovingKeepsFiles(s.f, k, s.sups[k], m);
        AnswersWereGiven(s.f);
        MovingStaysOk(s.f, k, s.sups[k], m);
        forall j | j in t.sups ensures SupOk(t.f, j, t.sups[j]) {
          if j != k { UnmovedStaysOk(s.f, t.f, k, j, s.sups[j]); }
        }
      case Crashes(_) =>
    }
  }

  lemma AnswersWereGiven(f: Shared)
    requires FilesOk(f)
    ensures forall id :: id in f.answers ==> id in f.answered
  {
  }

  lemma FreshIsOk(f: Shared, k: nat, todo: seq<Id>)
    ensures SupOk(f, k, Supervisor(Abandoning(todo, false), []))
  {
  }

  lemma {:induction false} RunKeepsInv(s: State, acts: seq<Act>)
    requires Inv(s) && Runs(s, acts)
    ensures Inv(After(s, acts))
    decreases acts
  {
    hide Inv, Can, Do;
    if acts != [] {
      StepKeepsInv(s, acts[0]);
      RunKeepsInv(Do(s, acts[0]), acts[1..]);
    }
  }

  /**
   In every run, with any number of askers, supervisors and crashes: each request is carried
   out at most once, one whose asker was told it was not taken is never carried out, a request
   never lies next to its own taken file, and no taken request is dropped without an answer.
   */
  lemma AtMostOnce(acts: seq<Act>)
    requires Runs(EMPTY, acts)
    ensures var f := After(EMPTY, acts).f;
      && Distinct(f.carried)
      && (forall id :: id in f.askers && f.askers[id].Untaken? ==> id !in f.carried)
      && (forall id :: id in f.requests ==> id !in f.taken)
      && (forall id :: id in f.takenBy ==> id in f.taken || id in f.answered)
  {
    NothingBroken();
    RunKeepsInv(EMPTY, acts);
    hide Runs, After, SupOk, Distinct;
  }

  lemma NothingBroken()
    ensures Inv(EMPTY)
  {
  }

  // ----- what an asker is told, whoever is alive -----

  /** The answer is the taker's own, or says that it was interrupted and somebody did say that. */
  predicate Told(f: Shared, id: Id, a: Answer) {
    (id in f.said && a == f.said[id]) || (a == INTERRUPTED && id in f.interrupted)
  }

  predicate TruthOk(f: Shared) {
    && (forall id :: id in f.answers ==> Told(f, id, f.answers[id]))
    && (forall id :: id in f.askers && (f.askers[id].Got? || f.askers[id].Collected?) ==>
          Told(f, id, f.askers[id].answer))
    && (forall id :: id in f.said ==> id in f.takenBy)
    && (forall id :: id in f.takenBy ==> id !in f.requests)
  }

  /** What it has taken and not answered yet. */
  function Owed(p: Supervisor): seq<Id> {
    (if p.phase.Reading? || p.phase.Handling? || p.phase.Answering? then [p.phase.id] else []) + p.queue
  }

  /** What it owes an answer is its own, and nobody gave it one of the taker's. */
  predicate UnsaidOk(f: Shared, k: nat, owed: seq<Id>) {
    && Distinct(owed)
    && forall i :: 0 <= i < |owed| ==> owed[i] in f.takenBy && f.takenBy[owed[i]] == k && owed[i] !in f.said
  }

  predicate TruthInv(s: State) {
    TruthOk(s.f) && forall k :: k in s.sups ==> k < s.born && UnsaidOk(s.f, k, Owed(s.sups[k]))
  }

  lemma AskingKeepsTruth(f: Shared, id: Id, x: Ask)
    requires FilesOk(f) && TruthOk(f) && CanAsk(f, id, x)
    ensures var g := Asked(f, id, x); TruthOk(g) && g.said == f.said && g.takenBy == f.takenBy
  {
    hide Told;
    match x {
      case Submits(r) =>
        assert id !in f.takenBy;
        hide FilesOk;
        SubmittingKeepsTruth(f, id, r);
      case _ =>
        hide FilesOk;
        if x.Reads? { ReadingKeepsTruth(f, id); } else { WaitingKeepsTruth(f, id, x); }
    }
    hide TruthOk;
  }

  lemma SubmittingKeepsTruth(f: Shared, id: Id, r: Request)
    requires TruthOk(f) && CanAsk(f, id, Submits(r)) && id !in f.takenBy
    ensures TruthOk(Asked(f, id, Submits(r)))
  {
    hide Told;
    SameTold(f, Asked(f, id, Submits(r)));
  }

  lemma ReadingKeepsTruth(f: Shared, id: Id)
    requires TruthOk(f) && CanAsk(f, id, Reads)
    ensures TruthOk(Asked(f, id, Reads))
  {
    hide Told;
    SameTold(f, Asked(f, id, Reads));
  }

  lemma WaitingKeepsTruth(f: Shared, id: Id, x: Ask)
    requires TruthOk(f) && CanAsk(f, id, x) && !x.Submits? && !x.Reads?
    ensures TruthOk(Asked(f, id, x))
  {
    hide Told;
    SameTold(f, Asked(f, id, x));
    match x {
      case Withdraws =>
      case Removes =>
      case _ =>
    }
  }

  lemma SameTold(f: Shared, g: Shared)
    requires g.said == f.said && g.interrupted == f.interrupted
    ensures forall id, a :: Told(f, id, a) <==> Told(g, id, a)
  {
  }

  lemma TakingKeepsTruth(f: Shared, k: nat, id: Id)
    requires TruthOk(f) && id in f.requests
    ensures TruthOk(TakenFrom(f, k, id))
  {
    hide Told;
    SameTold(f, TakenFrom(f, k, id));
  }

  lemma AnsweringKeepsTruth(f: Shared, id: Id, a: Answer)
    requires TruthOk(f) && id !in f.said && id in f.takenBy
    ensures TruthOk(AnsweredBy(f, id, a))
  {
  }

  lemma InterruptingKeepsTruth(f: Shared, id: Id)
    requires TruthOk(f)
    ensures TruthOk(AnsweredFor(f, id))
  {
  }

  lemma OthersKeepTruth(f: Shared, id: Id)
    requires TruthOk(f)
    ensures TruthOk(Dropped(f, id)) && TruthOk(Swept(f, id)) && TruthOk(CarriedOut(f, id))
  {
    hide Told;
    SameTold(f, Dropped(f, id));
    SameTold(f, Swept(f, id));
    SameTold(f, CarriedOut(f, id));
  }

  lemma FirstUnsaid(f: Shared, k: nat, p: Supervisor)
    requires UnsaidOk(f, k, Owed(p)) && p.phase.Answering?
    ensures p.phase.id !in f.said && p.phase.id in f.takenBy && f.takenBy[p.phase.id] == k
    ensures UnsaidOk(AnsweredBy(f, p.phase.id, p.phase.answer), k, p.queue)
  {
    assert Owed(p)[0] == p.phase.id && Owed(p)[1..] == p.queue;
    assert forall i :: 0 <= i < |p.queue| ==> p.queue[i] == Owed(p)[i + 1];
  }

  lemma OneMoreOwed(f: Shared, k: nat, owed: seq<Id>, id: Id)
    requires TruthOk(f) && UnsaidOk(f, k, owed) && id in f.requests
    ensures UnsaidOk(TakenFrom(f, k, id), k, owed + [id])
  {
    assert id !in f.takenBy && id !in f.said;
    hide TruthOk;
  }

  lemma StillUnsaid(f: Shared, g: Shared, k: nat, owed: seq<Id>)
    requires UnsaidOk(f, k, owed) && g.said == f.said && g.takenBy == f.takenBy
    ensures UnsaidOk(g, k, owed)
  {
  }

  lemma MovingKeepsTruth(f: Shared, k: nat, p: Supervisor, m: Move)
    requires TruthOk(f) && UnsaidOk(f, k, Owed(p)) && CanMove(f, p, m)
    ensures TruthOk(Left(f, k, p, m))
  {
    hide TruthOk, UnsaidOk, TakenFrom, AnsweredBy, AnsweredFor, Dropped, Swept, CarriedOut, IsListing, Distinct;
    match m {
      case Takes => if p.phase.todo != [] && p.phase.todo[0] in f.requests { TakingKeepsTruth(f, k, p.phase.todo[0]); }
      case Answers => FirstUnsaid(f, k, p); AnsweringKeepsTruth(f, p.phase.id, p.phase.answer);
      case Interrupts => InterruptingKeepsTruth(f, p.phase.todo[0]);
      case Clears => OthersKeepTruth(f, p.phase.todo[0]);
      case Drops => OthersKeepTruth(f, p.phase.id);
      case SweepsAnswer(id) => OthersKeepTruth(f, id);
      case CarriesOut(_) => OthersKeepTruth(f, p.phase.id);
      case _ =>
    }
  }

  lemma MovingStaysUnsaid(f: Shared, k: nat, p: Supervisor, m: Move)
    requires TruthOk(f) && UnsaidOk(f, k, Owed(p)) && CanMove(f, p, m)
    ensures UnsaidOk(Left(f, k, p, m), k, Owed(Moved(f, p, m)))
  {
    hide TruthOk, UnsaidOk, IsListing, Distinct;
    var g, q := Left(f, k, p, m), Moved(f, p, m);
    match m {
      case Takes =>
        assert Owed(p) == p.queue && Owed(q) == q.queue;
        if p.phase.todo != [] && p.phase.todo[0] in f.requests { OneMoreOwed(f, k, p.queue, p.phase.todo[0]); }
      case Answers =>
        FirstUnsaid(f, k, p);
        assert Owed(q) == p.queue;
      case Chooses(_) =>
        assert Owed(q) == p.queue == Owed(p);
      case _ =>
        assert Owed(q) == Owed(p);
        StillUnsaid(f, g, k, Owed(p));
    }
  }

  /** What the one that took it says reaches only requests of its own. */
  lemma UnmovedUnsaid(f: Shared, g: Shared, k: nat, j: nat, owed: seq<Id>)
    requires UnsaidOk(f, j, owed) && j != k && OnlyOwnSaid(f, g, k)
    ensures UnsaidOk(g, j, owed)
  {
  }

  predicate OnlyOwnSaid(f: Shared, g: Shared, k: nat) {
    && (forall id :: id in f.takenBy ==> id in g.takenBy && g.takenBy[id] == f.takenBy[id])
    && (forall id :: id in g.said && id !in f.said ==> id in f.takenBy && f.takenBy[id] == k)
  }

  lemma MoveSaysItsOwn(f: Shared, k: nat, p: Supervisor, m: Move)
    requires TruthOk(f) && UnsaidOk(f, k, Owed(p)) && CanMove(f, p, m)
    ensures OnlyOwnSaid(f, Left(f, k, p, m), k)
  {
    hide UnsaidOk, IsListing, Distinct, Told;
    match m {
      case Answers => FirstUnsaid(f, k, p);
      case Takes =>
      case _ =>
    }
  }

  lemma StepKeepsTruth(s: State, a: Act)
    requires Inv(s) && TruthInv(s) && Can(s, a)
    ensures TruthInv(Do(s, a))
  {
    assert FilesOk(s.f);
    hide FilesOk, SupOk, CanAsk, CanMove, Asked, Left, Moved, IsListing, TruthOk, UnsaidOk, OnlyOwnSaid, Owed;
    var t := Do(s, a);
    match a {
      case Asks(id, x) =>
        AskingKeepsTruth(s.f, id, x);
        forall j | j in t.sups ensures UnsaidOk(t.f, j, Owed(t.sups[j])) { StillUnsaid(s.f, t.f, j, Owed(s.sups[j])); }
      case Starts(todo) => NothingUnsaid(s.f, s.born, todo);
      case Moves(k, m) =>
        MovingKeepsTruth(s.f, k, s.sups[k], m);
        MovingStaysUnsaid(s.f, k, s.sups[k], m);
        MoveSaysItsOwn(s.f, k, s.sups[k], m);
        forall j | j in t.sups ensures UnsaidOk(t.f, j, Owed(t.sups[j])) {
          if j != k { UnmovedUnsaid(s.f, t.f, k, j, Owed(s.sups[j])); }
        }
      case Crashes(_) =>
    }
  }

  lemma NothingUnsaid(f: Shared, k: nat, todo: seq<Id>)
    ensures UnsaidOk(f, k, Owed(Supervisor(Abandoning(todo, false), [])))
  {
  }

  lemma {:induction false} RunKeepsTruth(s: State, acts: seq<Act>)
    requires Inv(s) && TruthInv(s) && Runs(s, acts)
    ensures TruthInv(After(s, acts))
    decreases acts
  {
    hide Inv, TruthInv, Can, Do;
    if acts != [] {
      StepKeepsInv(s, acts[0]);
      StepKeepsTruth(s, acts[0]);
      RunKeepsTruth(Do(s, acts[0]), acts[1..]);
    }
  }

  /**
   In every run, with any number of supervisors: an asker that reads an answer reads what the one that took
   its request wrote, or that it was interrupted; and the former whenever nobody said the latter of it.
   */
  lemma AnswerIsTheTakersOrInterrupted(acts: seq<Act>, id: Id, a: Answer)
    requires Runs(EMPTY, acts)
    requires var f := After(EMPTY, acts).f; id in f.askers && Holds(f.askers[id], a)
    ensures var f := After(EMPTY, acts).f;
      && ((id in f.said && a == f.said[id]) || (a == INTERRUPTED && id in f.interrupted))
      && (id !in f.interrupted ==> id in f.said && a == f.said[id])
  {
    NothingBroken();
    NothingUntrue();
    RunKeepsTruth(EMPTY, acts);
    hide Runs, After, Inv, UnsaidOk;
  }

  lemma NothingUntrue()
    ensures TruthInv(EMPTY)
  {
  }

  // ----- one supervisor alive at a time -----

  /** A supervisor starts only when no other is alive. */
  predicate SoloAct(s: State, a: Act) { a.Starts? ==> s.sups == map[] }

  predicate SoloRun(s: State, acts: seq<Act>)
    requires Runs(s, acts)
    decreases acts
  {
    acts == [] || (SoloAct(s, acts[0]) && SoloRun(Do(s, acts[0]), acts[1..]))
  }

  predicate Leaving(p: Phase) { p.Abandoning? || p.AbandonAnswering? || p.AbandonDropping? }

  predicate Recovering(p: Phase) { Leaving(p) && !p.sweep }

  predicate OwedOk(f: Shared, owed: seq<Id>) {
    Distinct(owed) && forall i :: 0 <= i < |owed| ==> owed[i] !in f.answered && owed[i] in f.takenBy
  }

  /** Every taken file is one the supervisor still has to see to. */
  predicate TakenSeenTo(f: Shared, p: Supervisor) {
    if Recovering(p.phase) then IsListing(p.phase.todo, f.taken.Keys)
    else forall id :: id in f.taken ==> id in Owed(p) || (p.phase.Dropping? && p.phase.id == id)
  }

  predicate SoloSup(f: Shared, p: Supervisor) {
    && TakenSeenTo(f, p)
    && (Leaving(p.phase) || p.phase.Resting? || p.phase.Clearing? ==> p.queue == [])
    && (Leaving(p.phase) && p.phase.sweep ==> p.phase.todo == [])
    && (p.phase.AbandonAnswering? ==> p.phase.todo != [] && p.phase.todo[0] !in f.answers)
    && (p.phase.AbandonDropping? ==> p.phase.todo != [] && p.phase.todo[0] in f.answered)
    && OwedOk(f, Owed(p))
  }

  predicate HasCollected(f: Shared, id: Id) { id in f.askers && f.askers[id].Collected? }

  /** The answer an asker holds, or is about to remove from the directory. */
  predicate Holds(x: Asker, a: Answer) { x == Got(a) || x == Collected(a) }

  predicate SoloFiles(f: Shared) {
    && (forall id :: id in f.answered ==> id in f.takenBy)
    && (forall id :: id in f.said ==> id in f.answered)
    && (forall id :: id in f.askers && (f.askers[id].Got? || f.askers[id].Collected?) ==>
          id in f.answered && (id in f.said ==> f.askers[id].answer == f.said[id]))
    && (forall id :: id in f.said && id in f.answers && !HasCollected(f, id) ==> f.answers[id] == f.said[id])
    && (forall id :: id in f.said && id in f.taken && !HasCollected(f, id) ==> id in f.answers)
  }

  predicate SoloInv(s: State) {
    FilesOk(s.f) && SoloFiles(s.f) && forall k :: k in s.sups ==> k == s.born - 1 && SoloSup(s.f, s.sups[k])
  }

  lemma SoloSubmits(f: Shared, id: Id, r: Request)
    requires SoloFiles(f) && CanAsk(f, id, Submits(r)) && id !in f.answered
    ensures SoloFiles(Asked(f, id, Submits(r)))
  {
  }

  lemma SoloReads(f: Shared, id: Id)
    requires SoloFiles(f) && CanAsk(f, id, Reads) && id in f.answered
    ensures SoloFiles(Asked(f, id, Reads))
  {
  }

  lemma SoloRemoves(f: Shared, id: Id)
    requires SoloFiles(f) && CanAsk(f, id, Removes)
    ensures SoloFiles(Asked(f, id, Removes))
  {
  }

  lemma SoloWaits(f: Shared, id: Id, x: Ask)
    requires SoloFiles(f) && CanAsk(f, id, x) && !x.Submits? && !x.Reads? && !x.Removes?
    ensures SoloFiles(Asked(f, id, x))
  {
    WaitingHoldsNothing(f, id, x);
    SoloSame(f, Asked(f, id, x));
  }

  /** Who holds an answer, and which. */
  predicate HoldsStill(f: Shared, g: Shared, id: Id) {
    && (HasAnswer(g, id) ==> HasAnswer(f, id) && g.askers[id].answer == f.askers[id].answer)
    && (HasCollected(f, id) <==> HasCollected(g, id))
  }

  predicate HasAnswer(f: Shared, id: Id) { id in f.askers && (f.askers[id].Got? || f.askers[id].Collected?) }

  lemma WaitingHoldsNothing(f: Shared, id: Id, x: Ask)
    requires CanAsk(f, id, x) && !x.Submits? && !x.Reads? && !x.Removes?
    ensures forall j :: HoldsStill(f, Asked(f, id, x), j)
  {
    match x {
      case Withdraws =>
      case _ =>
    }
  }

  lemma SoloSame(f: Shared, g: Shared)
    requires SoloFiles(f) && forall id :: HoldsStill(f, g, id)
    requires g.answered == f.answered && g.takenBy == f.takenBy && g.said == f.said
    requires g.answers == f.answers && g.taken == f.taken
    ensures SoloFiles(g)
  {
    forall id | HasAnswer(g, id) ensures id in g.answered && (id in g.said ==> g.askers[id].answer == g.said[id]) {
      assert HoldsStill(f, g, id);
    }
    forall id ensures HasCollected(f, id) <==> HasCollected(g, id) { assert HoldsStill(f, g, id); }
    hide HasCollected, HoldsStill;
  }

  lemma SoloAsking(f: Shared, id: Id, x: Ask)
    requires FilesOk(f) && SoloFiles(f) && CanAsk(f, id, x)
    ensures SoloFiles(Asked(f, id, x))
  {
    assert id in f.answers ==> id in f.answered;
    assert x.Submits? ==> id !in f.answered;
    hide FilesOk, SoloFiles, Asked;
    match x {
      case Submits(r) => SoloSubmits(f, id, r);
      case Reads => SoloReads(f, id);
      case Removes => SoloRemoves(f, id);
      case _ => SoloWaits(f, id, x);
    }
  }

  lemma SoloUnmoved(f: Shared, id: Id, x: Ask, p: Supervisor)
    requires SoloSup(f, p) && CanAsk(f, id, x)
    ensures SoloSup(Asked(f, id, x), p)
  {
    hide Distinct, CanAsk, TakenSeenTo, OwedOk;
    assert Asked(f, id, x).taken == f.taken && Asked(f, id, x).answered == f.answered;
    assert Asked(f, id, x).takenBy == f.takenBy;
    SameTaken(f, Asked(f, id, x), p);
    SameOwed(f, Asked(f, id, x), Owed(p));
    hide Asked;
    assert p.phase.AbandonAnswering? ==> p.phase.todo[0] !in Asked(f, id, x).answers by {
      AskingAddsNoAnswer(f, id, x);
    }
  }

  lemma AskingAddsNoAnswer(f: Shared, id: Id, x: Ask)
    requires CanAsk(f, id, x)
    ensures Asked(f, id, x).answers.Keys <= f.answers.Keys
  {
  }

  lemma SameOwed(f: Shared, g: Shared, owed: seq<Id>)
    requires OwedOk(f, owed) && g.answered == f.answered && (forall id :: id in f.takenBy ==> id in g.takenBy)
    ensures OwedOk(g, owed)
  {
  }

  lemma SameTaken(f: Shared, g: Shared, p: Supervisor)
    requires TakenSeenTo(f, p) && g.taken == f.taken
    ensures TakenSeenTo(g, p)
  {
  }

  lemma SoloAnswers(f: Shared, id: Id, a: Answer)
    requires SoloFiles(f) && id !in f.answered && id in f.takenBy
    ensures SoloFiles(AnsweredBy(f, id, a))
  {
  }

  lemma SoloInterrupts(f: Shared, id: Id)
    requires SoloFiles(f) && id in f.takenBy && id in f.taken && id !in f.answers
    ensures SoloFiles(AnsweredFor(f, id))
  {
  }

  lemma SoloTakesFiles(f: Shared, k: nat, id: Id)
    requires FilesOk(f) && SoloFiles(f) && id in f.requests
    ensures SoloFiles(TakenFrom(f, k, id))
  {
    assert id !in f.answered;
    hide FilesOk;
  }

  lemma SoloDropsFiles(f: Shared, id: Id)
    requires SoloFiles(f)
    ensures SoloFiles(Dropped(f, id))
  {
  }

  lemma SoloSweeps(f: Shared, id: Id)
    requires SoloFiles(f) && f.taken == map[]
    ensures SoloFiles(Swept(f, id))
  {
  }

  lemma SoloCarries(f: Shared, id: Id)
    requires SoloFiles(f)
    ensures SoloFiles(CarriedOut(f, id))
  {
  }

  lemma SoloMovingFiles(f: Shared, k: nat, p: Supervisor, m: Move)
    requires FilesOk(f) && SoloFiles(f) && SoloSup(f, p) && CanMove(f, p, m)
    ensures SoloFiles(Left(f, k, p, m))
  {
    hide Distinct, IsListing, TakenSeenTo, OwedOk, FilesOk, SoloFiles;
    hide TakenFrom, AnsweredBy, AnsweredFor, Dropped, Swept, CarriedOut;
    match m {
      case Answers => FirstOwed(f, p); SoloAnswers(f, p.phase.id, p.phase.answer);
      case Interrupts => FirstLeft(f, p); SoloInterrupts(f, p.phase.todo[0]);
      case Takes => if p.phase.todo != [] && p.phase.todo[0] in f.requests { SoloTakesFiles(f, k, p.phase.todo[0]); }
      case Clears => SoloDropsFiles(f, p.phase.todo[0]);
      case Drops => SoloDropsFiles(f, p.phase.id);
      case SweepsAnswer(id) => NoneTaken(f, p); SoloSweeps(f, id);
      case CarriesOut(_) => SoloCarries(f, p.phase.id);
      case _ =>
    }
  }

  lemma FirstOwed(f: Shared, p: Supervisor)
    requires SoloSup(f, p) && p.phase.Answering?
    ensures p.phase.id !in f.answered && p.phase.id in f.takenBy
  {
    hide Distinct, TakenSeenTo;
    assert Owed(p)[0] == p.phase.id;
  }

  lemma FirstLeft(f: Shared, p: Supervisor)
    requires FilesOk(f) && SoloSup(f, p) && p.phase.AbandonAnswering?
    ensures p.phase.todo[0] in f.taken && p.phase.todo[0] in f.takenBy
  {
    hide Distinct, OwedOk;
  }

  lemma NoneTaken(f: Shared, p: Supervisor)
    requires TakenSeenTo(f, p) && !Recovering(p.phase) && !p.phase.Dropping? && Owed(p) == []
    ensures f.taken == map[]
  {
    assert forall id :: id !in f.taken;
  }

  lemma SomeTaken(f: Shared, left: seq<Id>)
    requires left != [] && forall i :: 0 <= i < |left| ==> left[i] in f.taken
    ensures f.taken != map[]
  {
    assert left[0] in f.taken;
  }

  lemma OwesMore(f: Shared, k: nat, owed: seq<Id>, id: Id)
    requires FilesOk(f) && SoloFiles(f) && OwedOk(f, owed) && id in f.requests
    ensures OwedOk(TakenFrom(f, k, id), owed + [id])
  {
    assert id !in f.takenBy && id !in f.answered;
    hide FilesOk, SoloFiles;
  }

  lemma OwesLess(f: Shared, owed: seq<Id>, a: Answer)
    requires OwedOk(f, owed) && owed != []
    ensures OwedOk(AnsweredBy(f, owed[0], a), owed[1..])
  {
  }

  lemma SoloTakes(f: Shared, k: nat, p: Supervisor)
    requires FilesOk(f) && SoloFiles(f) && SoloSup(f, p) && CanMove(f, p, Takes)
    ensures SoloSup(Left(f, k, p, Takes), Moved(f, p, Takes))
  {
    hide FilesOk, SoloFiles, OwedOk, Distinct;
    var q := Moved(f, p, Takes);
    assert Owed(p) == p.queue && Owed(q) == q.queue;
    if p.phase.todo != [] && p.phase.todo[0] in f.requests {
      OwesMore(f, k, p.queue, p.phase.todo[0]);
      assert q.queue == p.queue + [p.phase.todo[0]];
    }
  }

  lemma ListingLoses(todo: seq<Id>, keys: set<Id>)
    requires IsListing(todo, keys) && todo != []
    ensures IsListing(todo[1..], keys - {todo[0]})
  {
    forall id | id in keys - {todo[0]} ensures id in todo[1..] {
      var i :| 0 <= i < |todo| && todo[i] == id;
      assert todo[1..][i - 1] == id;
    }
  }

  lemma SoloClears(f: Shared, k: nat, p: Supervisor)
    requires SoloSup(f, p) && CanMove(f, p, Clears)
    ensures SoloSup(Left(f, k, p, Clears), Moved(f, p, Clears))
  {
    hide Distinct, IsListing, OwedOk;
    var todo := p.phase.todo;
    var g := Dropped(f, todo[0]);
    assert g.taken.Keys == f.taken.Keys - {todo[0]};
    assert Owed(p) == Owed(Moved(f, p, Clears));
    SameOwed(f, g, Owed(p));
    if !p.phase.sweep { ListingLoses(todo, f.taken.Keys); }
  }

  lemma SoloChooses(f: Shared, p: Supervisor, left: seq<Id>)
    requires SoloSup(f, p) && CanMove(f, p, Chooses(left))
    ensures SoloSup(f, Moved(f, p, Chooses(left)))
  {
    hide IsListing, Distinct, OwedOk, TakenSeenTo;
    var q := Moved(f, p, Chooses(left));
    assert Owed(p) == p.queue == Owed(q);
    hide Owed;
    SameDuty(f, p, q);
    if p.queue == [] {
      NoneTaken(f, p);
      if left != [] { SomeTaken(f, left); }
    }
  }

  lemma SameDuty(f: Shared, p: Supervisor, q: Supervisor)
    requires TakenSeenTo(f, p) && Owed(p) == Owed(q) && !p.phase.Dropping?
    requires !Recovering(p.phase) && !Recovering(q.phase)
    ensures TakenSeenTo(f, q)
  {
    hide Owed;
  }

  lemma SoloReadsTaken(f: Shared, p: Supervisor, expired: bool)
    requires SoloSup(f, p) && CanMove(f, p, ReadsTaken(expired))
    ensures SoloSup(f, Moved(f, p, ReadsTaken(expired)))
  {
    hide IsListing, Distinct, OwedOk;
    assert Owed(Moved(f, p, ReadsTaken(expired))) == Owed(p);
  }

  lemma SoloCarriesSup(f: Shared, p: Supervisor, a: Answer)
    requires SoloSup(f, p) && CanMove(f, p, CarriesOut(a))
    ensures SoloSup(CarriedOut(f, p.phase.id), Moved(f, p, CarriesOut(a)))
  {
    hide IsListing, Distinct, OwedOk;
    assert Owed(Moved(f, p, CarriesOut(a))) == Owed(p);
    SameOwed(f, CarriedOut(f, p.phase.id), Owed(p));
  }

  lemma SoloAnswersSup(f: Shared, p: Supervisor)
    requires SoloSup(f, p) && CanMove(f, p, Answers)
    ensures SoloSup(AnsweredBy(f, p.phase.id, p.phase.answer), Moved(f, p, Answers))
  {
    hide IsListing, Distinct, OwedOk;
    var id, a := p.phase.id, p.phase.answer;
    assert Owed(p) == [id] + p.queue && Owed(p)[0] == id && Owed(p)[1..] == p.queue;
    assert Owed(Moved(f, p, Answers)) == p.queue;
    OwesLess(f, Owed(p), a);
  }

  lemma SoloDrops(f: Shared, p: Supervisor)
    requires SoloSup(f, p) && CanMove(f, p, Drops)
    ensures SoloSup(Dropped(f, p.phase.id), Moved(f, p, Drops))
  {
    hide IsListing, Distinct, OwedOk;
    assert Owed(Moved(f, p, Drops)) == p.queue == Owed(p);
    SameOwed(f, Dropped(f, p.phase.id), Owed(p));
  }

  lemma SoloAbandons(f: Shared, k: nat, p: Supervisor, m: Move)
    requires SoloSup(f, p) && CanMove(f, p, m) && (m.Looks? || m.Interrupts? || m.SweepsAnswer? || m.Ends?)
    requires forall id :: id in f.answers ==> id in f.answered
    ensures SoloSup(Left(f, k, p, m), Moved(f, p, m))
  {
    hide Distinct, OwedOk;
    assert Owed(Moved(f, p, m)) == Owed(p) == [];
    NothingOwed(Left(f, k, p, m));
  }

  lemma NothingOwed(f: Shared)
    ensures OwedOk(f, [])
  {
  }

  lemma SoloMovingSup(f: Shared, k: nat, p: Supervisor, m: Move)
    requires FilesOk(f) && SoloFiles(f) && SoloSup(f, p) && CanMove(f, p, m)
    ensures SoloSup(Left(f, k, p, m), Moved(f, p, m))
  {
    hide FilesOk, SoloFiles, Moved, TakenFrom, AnsweredBy, AnsweredFor, Dropped, Swept;
    hide CarriedOut, OwedOk, TakenSeenTo, Distinct;
    match m {
      case Takes => SoloTakes(f, k, p);
      case Clears => SoloClears(f, k, p);
      case Chooses(left) => SoloChooses(f, p, left);
      case ReadsTaken(expired) => SoloReadsTaken(f, p, expired);
      case CarriesOut(a) => SoloCarriesSup(f, p, a);
      case Answers => SoloAnswersSup(f, p);
      case Drops => SoloDrops(f, p);
      case Begins => SoloBegins(f, p, m);
      case Lists(_) => SoloBegins(f, p, m);
      case _ => AnswersWereGiven(f); SoloAbandons(f, k, p, m);
    }
  }

  lemma SoloBegins(f: Shared, p: Supervisor, m: Move)
    requires SoloSup(f, p) && CanMove(f, p, m) && (m.Begins? || m.Lists?)
    ensures SoloSup(f, Moved(f, p, m))
  {
    hide Distinct, OwedOk, IsListing;
    assert Owed(Moved(f, p, m)) == Owed(p);
  }

  /** What holds besides when supervisors come one after another, crashing anywhere. */
  lemma SoloStep(s: State, a: Act)
    requires Inv(s) && SoloInv(s) && Can(s, a) && SoloAct(s, a)
    ensures Inv(Do(s, a)) && SoloInv(Do(s, a))
  {
    hide FilesOk, SupOk, CanAsk, CanMove, Asked, Left, Moved, IsListing, SoloFiles, SoloSup;
    StepKeepsInv(s, a);
    match a {
      case Asks(id, x) =>
        SoloAsking(s.f, id, x);
        forall j | j in s.sups ensures SoloSup(Asked(s.f, id, x), s.sups[j]) { SoloUnmoved(s.f, id, x, s.sups[j]); }
      case Starts(todo) => SoloStarts(s.f, todo);
      case Moves(k, m) =>
        SoloMovingFiles(s.f, k, s.sups[k], m);
        SoloMovingSup(s.f, k, s.sups[k], m);
      case Crashes(_) =>
    }
  }

  lemma SoloStarts(f: Shared, todo: seq<Id>)
    requires IsListing(todo, f.taken.Keys)
    ensures SoloSup(f, Supervisor(Abandoning(todo, false), []))
  {
  }

  lemma {:induction false} SoloRunKeepsInv(s: State, acts: seq<Act>)
    requires Inv(s) && SoloInv(s) && Runs(s, acts) && SoloRun(s, acts)
    ensures SoloInv(After(s, acts))
    decreases acts
  {
    hide Inv, SoloInv, Can, Do, SoloAct;
    if acts != [] {
      SoloStep(s, acts[0]);
      SoloRunKeepsInv(Do(s, acts[0]), acts[1..]);
    }
  }

  /**
   With one supervisor alive at a time, crashing anywhere: an asker that reads an answer gets
   what the supervisor that took its request wrote, whenever that was ever written.
   */
  lemma AskerGetsWhatWasSaid(acts: seq<Act>, id: Id, a: Answer)
    requires Runs(EMPTY, acts) && SoloRun(EMPTY, acts)
    requires var f := After(EMPTY, acts).f; id in f.askers && Holds(f.askers[id], a)
    ensures var f := After(EMPTY, acts).f; id in f.answered && (id in f.said ==> a == f.said[id])
  {
    NothingBroken();
    NothingSolo();
    SoloRunKeepsInv(EMPTY, acts);
    hide Runs, After, SoloRun, Inv, FilesOk, SoloSup;
  }

  lemma NothingSolo()
    ensures SoloInv(EMPTY)
  {
  }

  /** And whenever it rests, past its recovery or a pass, every request ever taken has been answered. */
  lemma NothingTakenIsLeft(acts: seq<Act>, k: nat)
    requires Runs(EMPTY, acts) && SoloRun(EMPTY, acts)
    requires var s := After(EMPTY, acts); k in s.sups && s.sups[k].phase.Resting?
    ensures var f := After(EMPTY, acts).f;
      f.taken == map[] && forall id :: id in f.takenBy ==> id in f.answered
  {
    NothingBroken();
    NothingSolo();
    SoloRunKeepsInv(EMPTY, acts);
    RunKeepsInv(EMPTY, acts);
    hide Distinct, IsListing, Runs, After, SoloRun, SoloFiles, SupOk;
    var s := After(EMPTY, acts);
    assert SoloSup(s.f, s.sups[k]);
    assert Owed(s.sups[k]) == [];
    NoneTaken(s.f, s.sups[k]);
  }

  // ----- two alive at once -----

  /** One step further from the empty directory. */
  lemma {:induction false} RunsOn(s: State, acts: seq<Act>, a: Act)
    requires Runs(s, acts) && Can(After(s, acts), a)
    ensures Runs(s, acts + [a]) && After(s, acts + [a]) == Do(After(s, acts), a)
    decreases acts
  {
    hide Can, Do;
    if acts == [] {
      assert acts + [a] == [a] && [a][1..] == [];
    } else {
      assert (acts + [a])[1..] == acts[1..] + [a];
      RunsOn(Do(s, acts[0]), acts[1..], a);
    }
  }

  lemma Next(acts: seq<Act>, s: State, a: Act) returns (more: seq<Act>)
    requires Runs(EMPTY, acts) && After(EMPTY, acts) == s && Can(s, a)
    ensures Runs(EMPTY, more) && After(EMPTY, more) == Do(s, a)
  {
    hide Runs, After, Can, Do;
    RunsOn(EMPTY, acts, a);
    more := acts + [a];
  }

  /** The first supervisor has taken the request and is carrying it out. */
  function Busy(id: Id, act: Action): State {
    State(
      Shared(map[], map[id := Readable(act)], map[], map[id := Awaiting], map[id := 0], [], {}, {}, map[]),
      map[0 := Supervisor(Handling(id, act), [])],
      1,
      Book(map[id := Readable(act)], {}, {}, map[]))
  }

  lemma NothingYet()
    ensures Runs(EMPTY, []) && After(EMPTY, []) == EMPTY
  {
  }

  lemma UpToListing(id: Id, act: Action) returns (acts: seq<Act>)
    ensures Runs(EMPTY, acts)
    ensures After(EMPTY, acts) == State(
      NOTHING.(requests := map[id := Readable(act)], askers := map[id := Waiting]),
      map[0 := Supervisor(Listing, [])], 1, Book(map[id := Readable(act)], {}, {}, map[]))
  {
    hide Runs, After;
    NothingYet();
    var s := EMPTY;
    acts := Next([], s, Starts([]));
    s := Do(s, Starts([]));
    acts := Next(acts, s, Moves(0, Looks));
    s := Do(s, Moves(0, Looks));
    acts := Next(acts, s, Asks(id, Submits(Readable(act))));
    s := Do(s, Asks(id, Submits(Readable(act))));
    acts := Next(acts, s, Moves(0, Begins));
  }

  lemma UpToBusy(id: Id, act: Action) returns (acts: seq<Act>)
    ensures Runs(EMPTY, acts) && After(EMPTY, acts) == Busy(id, act)
  {
    hide Runs, After;
    acts := UpToListing(id, act);
    var s := State(
      NOTHING.(requests := map[id := Readable(act)], askers := map[id := Waiting]),
      map[0 := Supervisor(Listing, [])], 1, Book(map[id := Readable(act)], {}, {}, map[]));
    acts := Next(acts, s, Moves(0, Lists([id])));
    s := Do(s, Moves(0, Lists([id])));
    acts := Next(acts, s, Moves(0, Takes));
    s := Do(s, Moves(0, Takes));
    acts := Next(acts, s, Asks(id, SeesTaken));
    s := Do(s, Asks(id, SeesTaken));
    acts := Next(acts, s, Moves(0, Takes));
    s := Do(s, Moves(0, Takes));
    acts := Next(acts, s, Moves(0, Chooses([])));
    s := Do(s, Moves(0, Chooses([])));
    acts := Next(acts, s, Moves(0, ReadsTaken(false)));
    s := Do(s, Moves(0, ReadsTaken(false)));
    assert s.sups[0] == Busy(id, act).sups[0];
    assert s.f == Busy(id, act).f && s.sups == Busy(id, act).sups;
  }

  /**
   That only one is alive matters: a second one that starts while the first carries a request
   out sees it unanswered, and then writes over the first one's own answer.
   */
  lemma TwoMayDisagree(id: Id, act: Action, a: Answer) returns (acts: seq<Act>)
    ensures Runs(EMPTY, acts)
    ensures var f := After(EMPTY, acts).f;
      id in f.said && f.said[id] == a && id in f.askers && f.askers[id] == Got(INTERRUPTED)
    ensures After(EMPTY, acts).born == 2
  {
    hide Runs, After;
    acts := UpToBusy(id, act);
    var s := Busy(id, act);
    acts := Next(acts, s, Starts([id]));
    s := Do(s, Starts([id]));
    acts := Next(acts, s, Moves(1, Looks));
    s := Do(s, Moves(1, Looks));
    acts := Next(acts, s, Moves(0, CarriesOut(a)));
    s := Do(s, Moves(0, CarriesOut(a)));
    acts := Next(acts, s, Moves(0, Answers));
    s := Do(s, Moves(0, Answers));
    acts := Next(acts, s, Moves(1, Interrupts));
    s := Do(s, Moves(1, Interrupts));
    acts := Next(acts, s, Asks(id, Reads));
  }

  // ----- how many may be alive -----

  /** Never more than `n` supervisors alive. */
  predicate AtMost(s: State, acts: seq<Act>, n: nat)
    requires Runs(s, acts)
    decreases acts
  {
    |s.sups| <= n && (acts != [] ==> AtMost(Do(s, acts[0]), acts[1..], n))
  }

  lemma {:induction false} OneAtMostIsSolo(s: State, acts: seq<Act>)
    requires Inv(s) && Runs(s, acts) && AtMost(s, acts, 1)
    ensures SoloRun(s, acts)
    decreases acts
  {
    hide FilesOk, SupOk, CanAsk, CanMove, Asked, Left, Moved, IsListing;
    if acts != [] {
      StepKeepsInv(s, acts[0]);
      if acts[0].Starts? { assert s.born !in s.sups && |Do(s, acts[0]).sups| == |s.sups| + 1; }
      OneAtMostIsSolo(Do(s, acts[0]), acts[1..]);
    }
  }

  lemma {:induction false} FewerThan(keys: set<nat>, n: nat)
    requires forall k :: k in keys ==> k < n
    ensures |keys| <= n
  {
    if n == 0 {
      assert keys == {};
    } else {
      FewerThan(keys - {n - 1}, n - 1);
    }
  }

  /** There are never more alive than were ever started. */
  lemma {:induction false} NoMoreThanBorn(s: State, acts: seq<Act>, n: nat)
    requires Inv(s) && Runs(s, acts) && After(s, acts).born <= n
    ensures s.born <= n && AtMost(s, acts, n)
    decreases acts
  {
    hide FilesOk, SupOk, CanAsk, CanMove, Asked, Left, Moved, IsListing;
    if acts != [] {
      StepKeepsInv(s, acts[0]);
      NoMoreThanBorn(Do(s, acts[0]), acts[1..], n);
    }
    FewerThan(s.sups.Keys, s.born);
  }

  /** An asker was told other than what the supervisor that took its request wrote. */
  predicate Mistold(f: Shared, id: Id) {
    HasAnswer(f, id) && id in f.said && f.askers[id].answer != f.said[id]
  }

  /** Askers always get the handler's own answer, when there is one, exactly when no two may be alive at once. */
  lemma NoneMistoldIffOneAtMost(n: nat)
    ensures (forall acts, id :: Runs(EMPTY, acts) && AtMost(EMPTY, acts, n) ==> !Mistold(After(EMPTY, acts).f, id))
        <==> n <= 1
  {
    NothingBroken();
    hide Runs, After, AtMost, SoloRun, Inv;
    if n <= 1 {
      forall acts, id | Runs(EMPTY, acts) && AtMost(EMPTY, acts, n) ensures !Mistold(After(EMPTY, acts).f, id) {
        FewerAtMost(EMPTY, acts, n, 1);
        OneAtMostIsSolo(EMPTY, acts);
        var f := After(EMPTY, acts).f;
        if HasAnswer(f, id) { AskerGetsWhatWasSaid(acts, id, f.askers[id].answer); }
      }
    } else {
      var id := "";
      var acts := TwoMayDisagree(id, RestartSupervisor(false), Answer(Accepted, ""));
      NoMoreThanBorn(EMPTY, acts, n);
      assert Mistold(After(EMPTY, acts).f, id);
    }
  }

  lemma {:induction false} FewerAtMost(s: State, acts: seq<Act>, m: nat, n: nat)
    requires Runs(s, acts) && AtMost(s, acts, m) && m <= n
    ensures AtMost(s, acts, n)
    decreases acts
  {
    hide Can, Do;
    if acts != [] { FewerAtMost(Do(s, acts[0]), acts[1..], m, n); }
  }
}
