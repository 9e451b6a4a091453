/**
 What an answer rests on: the request as it was asked, how the one that took it found it, and what
 the handler gave back, all of it kept in a book that no step of the protocol reads.
 */
module ControlTruth {
  import opened ControlProtocol

  /** The answer the one that took the request owes it, by the book. */
  predicate Due(f: Shared, b: Book, id: Id, a: Answer)
    requires id in b.asked
  {
    if id in f.carried then
      && id in b.deeds && a == b.deeds[id].answer && b.asked[id] == Readable(b.deeds[id].action)
      && id !in b.late && id !in b.gone
    else if id in b.gone || b.asked[id].Unreadable? then
      a == Answer(Unknown, "a request this version of mafold can't read")
    else id in b.late && a == Answer(Expired, "")
  }

  /** Not read yet, or read in time and found. */
  predicate Fit(b: Book, id: Id) { id in b.asked && id !in b.late && id !in b.gone }

  /** The files hold what was asked. */
  predicate FilesTrue(f: Shared, b: Book) {
    && (forall id :: id in f.requests ==> id in b.asked && f.requests[id] == b.asked[id])
    && (forall id :: id in f.taken ==> id in b.asked && f.taken[id] == b.asked[id])
    && (forall id :: id in f.takenBy ==> id in b.asked)
    && (forall id :: id in b.asked ==> id in f.askers)
    && (forall id :: id in b.late ==> id in f.takenBy) && (forall id :: id in b.gone ==> id in f.takenBy)
  }

  predicate SaidTrue(f: Shared, b: Book) {
    forall id :: id in f.said ==> id in b.asked && Due(f, b, id, f.said[id])
  }

  predicate SupTrue(f: Shared, b: Book, p: Supervisor) {
    && (forall i :: 0 <= i < |Pending(p)| ==> Fit(b, Pending(p)[i]))
    && (p.phase.Handling? ==> p.phase.id in b.asked && b.asked[p.phase.id] == Readable(p.phase.action))
    && (p.phase.Answering? ==> p.phase.id in b.asked && Due(f, b, p.phase.id, p.phase.answer))
  }

  predicate BookInv(s: State) {
    FilesTrue(s.f, s.book) && SaidTrue(s.f, s.book) && forall k :: k in s.sups ==> SupTrue(s.f, s.book, s.sups[k])
  }

  /** What an answer to this request rests on is as it was. */
  predicate SameCase(f: Shared, b: Book, g: Shared, c: Book, id: Id) {
    && (id in f.carried <==> id in g.carried)
    && (id in b.late <==> id in c.late) && (id in b.gone <==> id in c.gone)
    && (id in b.asked ==> id in c.asked && c.asked[id] == b.asked[id])
    && (id in b.deeds <==> id in c.deeds) && (id in b.deeds ==> c.deeds[id] == b.deeds[id])
  }

  lemma SameDue(f: Shared, b: Book, g: Shared, c: Book, id: Id, a: Answer)
    requires id in b.asked && SameCase(f, b, g, c, id)
    ensures id in c.asked && (Due(f, b, id, a) <==> Due(g, c, id, a))
  {
  }

  // ----- asking -----

  lemma AskingKeepsCases(s: State, id: Id, x: Ask)
    requires FilesTrue(s.f, s.book) && CanAsk(s.f, id, x)
    ensures var t := Do(s, Asks(id, x));
      && (forall j :: j in s.book.asked ==> SameCase(s.f, s.book, t.f, t.book, j))
      && t.f.said == s.f.said && FilesTrue(t.f, t.book)
  {
    match x {
      case Submits(_) =>
      case Withdraws =>
      case _ =>
    }
  }

  lemma SaidStays(f: Shared, b: Book, g: Shared, c: Book)
    requires SaidTrue(f, b) && g.said == f.said
    requires forall id :: id in f.said ==> SameCase(f, b, g, c, id)
    ensures SaidTrue(g, c)
  {
    forall id | id in g.said ensures id in c.asked && Due(g, c, id, g.said[id]) {
      SameDue(f, b, g, c, id, f.said[id]);
    }
  }

  lemma SupStays(f: Shared, b: Book, g: Shared, c: Book, p: Supervisor)
    requires SupTrue(f, b, p)
    requires forall i :: 0 <= i < |Pending(p)| ==> SameCase(f, b, g, c, Pending(p)[i])
    requires p.phase.Answering? ==> SameCase(f, b, g, c, p.phase.id)
    ensures SupTrue(g, c, p)
  {
    if p.phase.Answering? { SameDue(f, b, g, c, p.phase.id, p.phase.answer); }
    hide Due;
    assert p.phase.Handling? ==> Pending(p)[0] == p.phase.id;
  }

  // ----- moving -----

  lemma FirstIsOwn(f: Shared, k: nat, p: Supervisor)
    requires PendingOk(f, k, Pending(p)) && (p.phase.Reading? || p.phase.Handling?)
    ensures p.phase.id in f.takenBy && f.takenBy[p.phase.id] == k && p.phase.id !in f.carried
    ensures forall i :: 0 <= i < |p.queue| ==> p.queue[i] != p.phase.id && p.queue[i] in Pending(p)
  {
    assert Pending(p)[0] == p.phase.id;
    assert forall i :: 0 <= i < |p.queue| ==> p.queue[i] == Pending(p)[i + 1];
  }

  /** Whoever else's, or of its own queue: only what it reads or carries out changes its case. */
  lemma MoveKeepsCases(s: State, k: nat, m: Move, id: Id)
    requires k in s.sups && CanMove(s.f, s.sups[k], m)
    requires (m.ReadsTaken? || m.CarriesOut?) ==> id != s.sups[k].phase.id
    ensures SameCase(s.f, s.book, Do(s, Moves(k, m)).f, Do(s, Moves(k, m)).book, id)
  {
    hide IsListing, Distinct;
    match m {
      case CarriesOut(_) =>
      case ReadsTaken(_) =>
      case _ =>
    }
  }

  lemma FilesMove(s: State, k: nat, m: Move)
    requires FilesTrue(s.f, s.book) && k in s.sups && CanMove(s.f, s.sups[k], m)
    requires PendingOk(s.f, k, Pending(s.sups[k]))
    ensures FilesTrue(Do(s, Moves(k, m)).f, Do(s, Moves(k, m)).book)
  {
    hide IsListing, Distinct, Moved;
    match m {
      case ReadsTaken(_) => FirstIsOwn(s.f, k, s.sups[k]);
      case Takes => hide PendingOk, Pending;
      case _ => hide PendingOk, Pending;
    }
  }

  lemma AnsweringSaysDue(f: Shared, b: Book, id: Id, a: Answer)
    requires SaidTrue(f, b) && id in b.asked && Due(f, b, id, a)
    ensures SaidTrue(AnsweredBy(f, id, a), b)
  {
    var g := AnsweredBy(f, id, a);
    forall j | j in g.said ensures j in b.asked && Due(g, b, j, g.said[j]) {
      SameDue(f, b, g, b, j, g.said[j]);
    }
  }

  lemma SaidMoves(s: State, k: nat, m: Move)
    requires SaidTrue(s.f, s.book) && k in s.sups && CanMove(s.f, s.sups[k], m)
    requires SupTrue(s.f, s.book, s.sups[k]) && UnsaidOk(s.f, k, Owed(s.sups[k]))
    ensures SaidTrue(Do(s, Moves(k, m)).f, Do(s, Moves(k, m)).book)
  {
    hide IsListing, Distinct, Moved, Due, SaidTrue, SameCase;
    var p, t := s.sups[k], Do(s, Moves(k, m));
    if m.Answers? {
      AnsweringSaysDue(s.f, s.book, p.phase.id, p.phase.answer);
    } else {
      assert m.ReadsTaken? || m.CarriesOut? ==> Owed(p)[0] == p.phase.id;
      forall id | id in s.f.said ensures SameCase(s.f, s.book, t.f, t.book, id) { MoveKeepsCases(s, k, m, id); }
      SameSaid(s.f, k, p, m);
      SaidStays(s.f, s.book, t.f, t.book);
    }
  }

  lemma SameSaid(f: Shared, k: nat, p: Supervisor, m: Move)
    requires CanMove(f, p, m) && !m.Answers?
    ensures Left(f, k, p, m).said == f.said
  {
    hide IsListing, Distinct;
  }

  lemma TakesFit(f: Shared, b: Book, k: nat, p: Supervisor)
    requires FilesOk(f) && FilesTrue(f, b) && SupTrue(f, b, p) && CanMove(f, p, Takes)
    ensures SupTrue(Left(f, k, p, Takes), b, Moved(f, p, Takes))
  {
    hide Distinct, Due;
    var q := Moved(f, p, Takes);
    assert Pending(p) == p.queue && Pending(q) == q.queue;
  }

  lemma ReadsTruly(f: Shared, b: Book, c: Book, k: nat, p: Supervisor, expired: bool)
    requires FilesTrue(f, b) && SupTrue(f, b, p) && p.phase.Reading? && PendingOk(f, k, Pending(p))
    requires var id := p.phase.id;
      c == b.(late := if expired then b.late + {id} else b.late,
              gone := if id in f.taken then b.gone else b.gone + {id})
    ensures SupTrue(f, c, Moved(f, p, ReadsTaken(expired)))
  {
    FirstIsOwn(f, k, p);
    hide PendingOk, Distinct;
    var id, q := p.phase.id, Moved(f, p, ReadsTaken(expired));
    assert Fit(b, id) by { assert Pending(p)[0] == id; }
    forall i | 0 <= i < |p.queue| ensures Fit(c, p.queue[i]) {
      assert Pending(p)[i + 1] == p.queue[i];
    }
    assert Pending(q) == if q.phase.Handling? then [id] + p.queue else p.queue;
  }

  lemma CarriesTruly(f: Shared, b: Book, k: nat, p: Supervisor, a: Answer)
    requires SupTrue(f, b, p) && p.phase.Handling? && PendingOk(f, k, Pending(p))
    ensures SupTrue(CarriedOut(f, p.phase.id), b.(deeds := b.deeds[p.phase.id := Deed(p.phase.action, a)]),
                    Moved(f, p, CarriesOut(a)))
  {
    FirstIsOwn(f, k, p);
    hide PendingOk, Distinct;
    var q := Moved(f, p, CarriesOut(a));
    assert Fit(b, p.phase.id) by { assert Pending(p)[0] == p.phase.id; }
    assert Pending(q) == p.queue && forall i :: 0 <= i < |p.queue| ==> Pending(p)[i + 1] == p.queue[i];
  }

  lemma MovesTruly(s: State, k: nat, m: Move)
    requires FilesOk(s.f) && FilesTrue(s.f, s.book) && k in s.sups && CanMove(s.f, s.sups[k], m)
    requires SupTrue(s.f, s.book, s.sups[k]) && PendingOk(s.f, k, Pending(s.sups[k]))
    ensures SupTrue(Do(s, Moves(k, m)).f, Do(s, Moves(k, m)).book, Moved(s.f, s.sups[k], m))
  {
    hide IsListing, Distinct, Due, FilesOk, FilesTrue, PendingOk, Fit, SameCase;
    var p, t, q := s.sups[k], Do(s, Moves(k, m)), Moved(s.f, s.sups[k], m);
    match m {
      case Takes => TakesFit(s.f, s.book, k, p);
      case ReadsTaken(expired) => ReadsTruly(s.f, s.book, t.book, k, p, expired);
      case CarriesOut(a) => CarriesTruly(s.f, s.book, k, p, a);
      case _ =>
        forall id ensures SameCase(s.f, s.book, t.f, t.book, id) { MoveKeepsCases(s, k, m, id); }
        SupStays(s.f, s.book, t.f, t.book, p);
        SamePending(s.f, p, m);
    }
  }

  lemma SamePending(f: Shared, p: Supervisor, m: Move)
    requires CanMove(f, p, m) && !m.Takes? && !m.ReadsTaken? && !m.CarriesOut?
    ensures var q := Moved(f, p, m);
      Pending(q) == Pending(p) && !q.phase.Answering? && (q.phase.Handling? ==> q.phase == p.phase)
  {
    hide IsListing, Distinct;
  }

  /** A supervisor's own cases stay as they are while another moves. */
  lemma OthersStayTrue(s: State, k: nat, m: Move, j: nat)
    requires Inv(s) && TruthInv(s) && k in s.sups && CanMove(s.f, s.sups[k], m)
    requires j in s.sups && j != k && SupTrue(s.f, s.book, s.sups[j])
    ensures SupTrue(Do(s, Moves(k, m)).f, Do(s, Moves(k, m)).book, s.sups[j])
  {
    var p, o, t := s.sups[k], s.sups[j], Do(s, Moves(k, m));
    assert SupOk(s.f, k, p) && SupOk(s.f, j, o) && UnsaidOk(s.f, j, Owed(o));
    if m.ReadsTaken? || m.CarriesOut? { FirstIsOwn(s.f, k, p); }
    hide SupTrue, FilesOk, TruthOk, SameCase, Distinct, IsListing, CanMove, Left, Moved;
    forall i | 0 <= i < |Pending(o)| ensures SameCase(s.f, s.book, t.f, t.book, Pending(o)[i]) {
      MoveKeepsCases(s, k, m, Pending(o)[i]);
    }
    if o.phase.Answering? {
      assert Owed(o)[0] == o.phase.id;
      MoveKeepsCases(s, k, m, o.phase.id);
    }
    SupStays(s.f, s.book, t.f, t.book, o);
  }

  lemma StepKeepsBook(s: State, a: Act)
    requires Inv(s) && TruthInv(s) && BookInv(s) && Can(s, a)
    ensures BookInv(Do(s, a))
  {
    hide FilesOk, FilesTrue, SaidTrue, SupTrue, TruthOk, SameCase, CanAsk, CanMove, Asked, Left, Moved, IsListing;
    var t := Do(s, a);
    match a {
      case Asks(id, x) =>
        AskingKeepsTruly(s, id, x);
      case Starts(todo) => StartsTruly(s.f, s.book, todo);
      case Moves(k, m) =>
        assert SupOk(s.f, k, s.sups[k]) && UnsaidOk(s.f, k, Owed(s.sups[k]));
        FilesMove(s, k, m);
        SaidMoves(s, k, m);
        MovesTruly(s, k, m);
        forall j | j in t.sups ensures SupTrue(t.f, t.book, t.sups[j]) {
          if j != k { OthersStayTrue(s, k, m, j); }
        }
      case Crashes(_) =>
    }
  }

  lemma AskingKeepsTruly(s: State, id: Id, x: Ask)
    requires BookInv(s) && Can(s, Asks(id, x))
    requires (forall j :: j in s.sups ==> UnsaidOk(s.f, j, Owed(s.sups[j]))) && TruthOk(s.f)
    ensures BookInv(Do(s, Asks(id, x)))
  {
    var t := Do(s, Asks(id, x));
    AskingKeepsCases(s, id, x);
    hide FilesTrue, SameCase, TruthOk, UnsaidOk, Due;
    SaidStays(s.f, s.book, t.f, t.book);
    forall j | j in t.sups ensures SupTrue(t.f, t.book, t.sups[j]) {
      var p := s.sups[j];
      assert forall i :: 0 <= i < |Pending(p)| ==> Fit(s.book, Pending(p)[i]);
      SupStays(s.f, s.book, t.f, t.book, p);
    }
  }

  lemma StartsTruly(f: Shared, b: Book, todo: seq<Id>)
    ensures SupTrue(f, b, Supervisor(Abandoning(todo, false), []))
  {
  }

  lemma {:induction false} RunKeepsBook(s: State, acts: seq<Act>)
    requires Inv(s) && TruthInv(s) && BookInv(s) && Runs(s, acts)
    ensures BookInv(After(s, acts))
    decreases acts
  {
    hide Inv, TruthInv, BookInv, Can, Do;
    if acts != [] {
      StepKeepsInv(s, acts[0]);
      StepKeepsTruth(s, acts[0]);
      StepKeepsBook(s, acts[0]);
      RunKeepsBook(Do(s, acts[0]), acts[1..]);
    }
  }

  lemma NothingInTheBook()
    ensures BookInv(EMPTY)
  {
  }

  // ----- the book is the run -----

  predicate AsksIt(a: Act, id: Id, r: Request) { a == Asks(id, Submits(r)) }

  /** The act is the handler's giving back this answer for that action, asked for by that request. */
  predicate DoesIt(s: State, a: Act, id: Id, d: Deed)
    requires Can(s, a)
  {
    a.Moves? && a.move == CarriesOut(d.answer) && s.sups[a.k].phase == Handling(id, d.action)
  }

  predicate ReadsIt(s: State, a: Act, id: Id)
    requires Can(s, a)
  {
    a.Moves? && a.move.ReadsTaken? && s.sups[a.k].phase == Reading(id)
  }

  predicate AskedIn(s: State, acts: seq<Act>, id: Id, r: Request)
    requires Runs(s, acts)
    decreases acts
  {
    acts != [] && (AsksIt(acts[0], id, r) || AskedIn(Do(s, acts[0]), acts[1..], id, r))
  }

  predicate DoneIn(s: State, acts: seq<Act>, id: Id, d: Deed)
    requires Runs(s, acts)
    decreases acts
  {
    acts != [] && (DoesIt(s, acts[0], id, d) || DoneIn(Do(s, acts[0]), acts[1..], id, d))
  }

  predicate LateIn(s: State, acts: seq<Act>, id: Id)
    requires Runs(s, acts)
    decreases acts
  {
    && acts != []
    && ((ReadsIt(s, acts[0], id) && acts[0].move.expired) || LateIn(Do(s, acts[0]), acts[1..], id))
  }

  predicate GoneIn(s: State, acts: seq<Act>, id: Id)
    requires Runs(s, acts)
    decreases acts
  {
    acts != [] && ((ReadsIt(s, acts[0], id) && id !in s.f.taken) || GoneIn(Do(s, acts[0]), acts[1..], id))
  }

  lemma StepIsNoted(s: State, a: Act, id: Id)
    requires Can(s, a)
    ensures var b, c := s.book, Do(s, a).book;
      && (id in c.late <==> id in b.late || (ReadsIt(s, a, id) && a.move.expired))
      && (id in c.gone <==> id in b.gone || (ReadsIt(s, a, id) && id !in s.f.taken))
      && (id in c.asked ==> AsksIt(a, id, c.asked[id]) || (id in b.asked && c.asked[id] == b.asked[id]))
      && (id in c.deeds ==> DoesIt(s, a, id, c.deeds[id]) || (id in b.deeds && c.deeds[id] == b.deeds[id]))
  {
    hide IsListing, Distinct, Left, Moved, Asked;
  }

  /** Every entry is what some act of the run put down. */
  lemma {:induction false} BookIsTheRun(s: State, acts: seq<Act>, id: Id)
    requires Runs(s, acts)
    ensures var b, c := s.book, After(s, acts).book;
      && (id in c.late <==> id in b.late || LateIn(s, acts, id))
      && (id in c.gone <==> id in b.gone || GoneIn(s, acts, id))
      && (id in c.asked ==> (id in b.asked && c.asked[id] == b.asked[id]) || AskedIn(s, acts, id, c.asked[id]))
      && (id in c.deeds ==> (id in b.deeds && c.deeds[id] == b.deeds[id]) || DoneIn(s, acts, id, c.deeds[id]))
    decreases acts
  {
    hide Can, Do, AsksIt, DoesIt, ReadsIt;
    if acts != [] {
      StepIsNoted(s, acts[0], id);
      BookIsTheRun(Do(s, acts[0]), acts[1..], id);
    }
  }

  // ----- what is said -----

  /** The handler gave back `a` for the very action that was asked for. */
  ghost predicate HandlersOwn(acts: seq<Act>, id: Id, a: Answer)
    requires Runs(EMPTY, acts)
  {
    exists act :: AskedIn(EMPTY, acts, id, Readable(act)) && DoneIn(EMPTY, acts, id, Deed(act, a))
  }

  lemma InTheEnd(acts: seq<Act>)
    requires Runs(EMPTY, acts)
    ensures var s := After(EMPTY, acts); Inv(s) && TruthInv(s) && BookInv(s)
  {
    NothingBroken();
    NothingUntrue();
    NothingInTheBook();
    hide Runs, After, Inv, TruthInv, BookInv;
    RunKeepsInv(EMPTY, acts);
    RunKeepsTruth(EMPTY, acts);
    RunKeepsBook(EMPTY, acts);
  }

  /**
   In every run, with any number of supervisors: what the one that took a request wrote is the handler's
   own answer to what was asked when it was carried out; else the request could not be read, or was past
   its time, and it says which.
   */
  lemma WhatIsSaid(acts: seq<Act>, id: Id)
    requires Runs(EMPTY, acts) && id in After(EMPTY, acts).f.said
    ensures var s := After(EMPTY, acts); var a := s.f.said[id];
      && id in s.book.asked && AskedIn(EMPTY, acts, id, s.book.asked[id])
      && var unread, late := s.book.asked[id].Unreadable? || GoneIn(EMPTY, acts, id), LateIn(EMPTY, acts, id);
         && (id in s.f.carried <==> !unread && !late)
         && (!unread && !late ==> HandlersOwn(acts, id, a))
         && (unread ==> a == Answer(Unknown, "a request this version of mafold can't read"))
         && (!unread && late ==> a == Answer(Expired, ""))
  {
    InTheEnd(acts);
    BookIsTheRun(EMPTY, acts, id);
    var s := After(EMPTY, acts);
    assert Due(s.f, s.book, id, s.f.said[id]);
    hide Runs, After, AskedIn, DoneIn, LateIn, GoneIn, Inv, TruthInv, FilesTrue, SupTrue;
    if id in s.f.carried {
      var d := s.book.deeds[id];
      assert AskedIn(EMPTY, acts, id, Readable(d.action)) && DoneIn(EMPTY, acts, id, Deed(d.action, d.answer));
    }
  }

  // ----- one supervisor alive at a time -----

  /** Whatever it has taken is there to be read. */
  predicate There(f: Shared, p: Supervisor) { forall i :: 0 <= i < |Pending(p)| ==> Pending(p)[i] in f.taken }

  predicate ThereInv(s: State) { s.book.gone == {} && forall k :: k in s.sups ==> There(s.f, s.sups[k]) }

  lemma DroppingLeavesRest(f: Shared, k: nat, p: Supervisor)
    requires SupOk(f, k, p) && SoloSup(f, p) && There(f, p) && p.phase.Dropping?
    ensures There(Dropped(f, p.phase.id), Moved(f, p, Drops))
  {
    hide TakenSeenTo, PendingOk;
    var q := Moved(f, p, Drops);
    assert Pending(p) == p.queue == Pending(q) == Owed(p);
  }

  lemma MovingStaysThere(f: Shared, k: nat, p: Supervisor, m: Move)
    requires SupOk(f, k, p) && SoloSup(f, p) && There(f, p) && CanMove(f, p, m)
    ensures There(Left(f, k, p, m), Moved(f, p, m))
  {
    hide IsListing, Distinct, TakenSeenTo, OwedOk, PendingOk, PhaseOk, There;
    var q := Moved(f, p, m);
    match m {
      case Takes => TakingIsThere(f, k, p);
      case Drops => DroppingLeavesRest(f, k, p);
      case Clears =>
        assert Pending(q) == [];
        assert There(Left(f, k, p, m), q) by { NothingPending(Left(f, k, p, m), q); }
      case _ =>
        SameTakenFiles(f, k, p, m);
        NoMorePending(f, p, m);
        LessIsThere(f, Left(f, k, p, m), p, q);
    }
  }

  lemma TakingIsThere(f: Shared, k: nat, p: Supervisor)
    requires There(f, p) && CanMove(f, p, Takes)
    ensures There(Left(f, k, p, Takes), Moved(f, p, Takes))
  {
    var q := Moved(f, p, Takes);
    assert Pending(p) == p.queue && Pending(q) == q.queue;
  }

  lemma NothingPending(f: Shared, p: Supervisor)
    requires Pending(p) == []
    ensures There(f, p)
  {
  }

  lemma NoMorePending(f: Shared, p: Supervisor, m: Move)
    requires CanMove(f, p, m) && !m.Takes?
    ensures var q := Moved(f, p, m);
      Pending(q) == Pending(p) || (Pending(p) != [] && Pending(q) == Pending(p)[1..])
  {
    hide IsListing, Distinct;
    match m {
      case ReadsTaken(_) => assert Pending(p)[1..] == p.queue;
      case CarriesOut(_) => assert Pending(p)[1..] == p.queue;
      case Chooses(_) => assert p.queue != [] ==> [p.queue[0]] + p.queue[1..] == p.queue;
      case _ =>
    }
  }

  lemma LessIsThere(f: Shared, g: Shared, p: Supervisor, q: Supervisor)
    requires There(f, p) && g.taken == f.taken
    requires Pending(q) == Pending(p) || (Pending(p) != [] && Pending(q) == Pending(p)[1..])
    ensures There(g, q)
  {
    hide Pending;
  }

  lemma SameTakenFiles(f: Shared, k: nat, p: Supervisor, m: Move)
    requires CanMove(f, p, m) && !m.Takes? && !m.Drops? && !m.Clears?
    ensures Left(f, k, p, m).taken == f.taken
  {
    hide IsListing, Distinct;
  }

  lemma StepStaysThere(s: State, a: Act)
    requires Inv(s) && SoloInv(s) && ThereInv(s) && Can(s, a) && SoloAct(s, a)
    ensures ThereInv(Do(s, a))
  {
    hide FilesOk, SoloFiles, SoloSup, IsListing, Moved;
    match a {
      case Asks(id, x) =>
        hide SupOk;
        AskingKeepsFiles(s.f, id, x);
      case Starts(_) =>
      case Moves(k, m) =>
        MovingStaysThere(s.f, k, s.sups[k], m);
        hide SupOk, Left;
        if m.ReadsTaken? { assert Pending(s.sups[k])[0] == s.sups[k].phase.id; }
      case Crashes(_) =>
    }
  }

  lemma {:induction false} SoloRunStaysThere(s: State, acts: seq<Act>)
    requires Inv(s) && SoloInv(s) && ThereInv(s) && Runs(s, acts) && SoloRun(s, acts)
    ensures ThereInv(After(s, acts))
    decreases acts
  {
    hide Inv, SoloInv, ThereInv, Can, Do, SoloAct;
    if acts != [] {
      SoloStep(s, acts[0]);
      StepStaysThere(s, acts[0]);
      SoloRunStaysThere(Do(s, acts[0]), acts[1..]);
    }
  }

  lemma NothingThere()
    ensures ThereInv(EMPTY) && EMPTY.book.gone == {}
  {
  }

  lemma NothingGone(acts: seq<Act>, id: Id)
    requires Runs(EMPTY, acts) && SoloRun(EMPTY, acts)
    ensures !GoneIn(EMPTY, acts, id)
  {
    NothingBroken();
    NothingSolo();
    NothingThere();
    BookIsTheRun(EMPTY, acts, id);
    hide Runs, After, SoloRun, Inv, SoloInv, GoneIn;
    SoloRunStaysThere(EMPTY, acts);
  }

  /**
   With one supervisor alive at a time, crashing anywhere: an asker that reads an answer gets the handler's
   own to what it asked when that was carried out and answered; else it learns that its request could not
   be read, or came too late, or was interrupted, each exactly when it was.
   */
  lemma AskerGetsTheHandlersOwn(acts: seq<Act>, id: Id, a: Answer)
    requires Runs(EMPTY, acts) && SoloRun(EMPTY, acts)
    requires var f := After(EMPTY, acts).f; id in f.askers && Holds(f.askers[id], a)
    ensures var s := After(EMPTY, acts);
      if id !in s.f.said then a.code == Interrupted
      else
        && id in s.book.asked && AskedIn(EMPTY, acts, id, s.book.asked[id])
        && var r, late := s.book.asked[id], LateIn(EMPTY, acts, id);
           && (id in s.f.carried <==> r.Readable? && !late)
           && (r.Readable? && !late ==> HandlersOwn(acts, id, a))
           && (r.Unreadable? ==> a == Answer(Unknown, "a request this version of mafold can't read"))
           && (r.Readable? && late ==> a == Answer(Expired, ""))
  {
    AnswerIsTheTakersOrInterrupted(acts, id, a);
    AskerGetsWhatWasSaid(acts, id, a);
    NothingGone(acts, id);
    hide Runs, After, SoloRun, AskedIn, LateIn, GoneIn, HandlersOwn;
    if id in After(EMPTY, acts).f.said { WhatIsSaid(acts, id); }
  }
}
