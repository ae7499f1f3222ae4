/**
 The forward relay (app/src/modules/content/forward-relay.service.ts) and the upsert it calls.

 Delivery is at least once: the job first, the published mark after it.  Other sessions (workers, other relays,
 users) may act at every await, and every await may throw, before or after its statement took effect.
 */
module ForwardSeam {
  import opened Domain
  import opened Queue
  import opened QueueSafety
  import opened Relays

  /**
   What the relay shares with other sessions: the queue, course.outbox, and, as history, the rows of course.outbox whose
   document has been enqueued since they were written.
   */
  datatype State = State(world: World, rows: seq<Message<Document>>, handed: set<nat>)

  datatype Event =
    | Put(action: Action)                    // the relay's own enqueue
    | Mark(row: nat)                         // the relay's own mark
    | Step(action: Action)                   // a step of another session on the queue
    | Rows(after: seq<Message<Document>>)    // another session's write to course.outbox

  predicate IsOwn(e: Event) { e.Put? || e.Mark? }

  /** A row is marked only after its document was enqueued. */
  ghost predicate MarksFollow(rows: seq<Message<Document>>, rows': seq<Message<Document>>, handed: set<nat>) {
    forall i :: 0 <= i < |rows'| && rows'[i].published && !(i < |rows| && rows[i].published) ==> i in handed
  }

  /** Every session, and the relay itself, enqueues a row's document before it marks the row. */
  ghost predicate Possible(s: State, e: Event) {
    match e
    case Put(a) => LedgerCovers(s.world) && Enabled(s.world, a)
    case Step(a) => LedgerCovers(s.world) && Enabled(s.world, a)
    case Mark(i) => i < |s.rows| && i in s.handed
    case Rows(after) => RowsGrow(s.rows, after) && MarksFollow(s.rows, after, s.handed)
  }

  ghost function RowsFor(rows: seq<Message<Document>>, a: Action): set<nat> {
    set i: nat | i < |rows| && a.Enqueue? && rows[i].payload == a.document
  }

  ghost function Acted(s: State, a: Action): State
    requires LedgerCovers(s.world) && Enabled(s.world, a)
  {
    State(Next(s.world, a), s.rows, s.handed + RowsFor(s.rows, a))
  }

  ghost function After(s: State, e: Event): State
    requires Possible(s, e)
  {
    match e
    case Put(a) => Acted(s, a)
    case Step(a) => Acted(s, a)
    case Mark(i) => s.(rows := s.rows[i := s.rows[i].(published := true)])
    case Rows(after) => s.(rows := after)
  }

  ghost predicate Run(s: State, es: seq<Event>, s': State)
    decreases |es|
  {
    if es == [] then s == s'
    else
      var before, last := es[..|es| - 1], es[|es| - 1];
      exists mid :: Run(s, before, mid) && Leads(mid, last, s')
  }

  ghost predicate Leads(s: State, e: Event, s': State) {
    Possible(s, e) && s' == After(s, e)
  }

  /** The relay's own events, in order. */
  function Own(es: seq<Event>): seq<Event> {
    if es == [] then [] else Own(es[..|es| - 1]) + if IsOwn(es[|es| - 1]) then [es[|es| - 1]] else []
  }

  lemma OneMore(s: State, es: seq<Event>, mid: State, e: Event)
    requires Run(s, es, mid) && Possible(mid, e)
    ensures Run(s, es + [e], After(mid, e)) && Own(es + [e]) == Own(es) + if IsOwn(e) then [e] else []
  {
    assert (es + [e])[..|es|] == es && (es + [e])[|es|] == e;
    assert Leads(mid, e, After(mid, e));
  }

  lemma EventKeepsJobs(s: State, e: Event)
    requires Inv(s.world) && Possible(s, e)
    ensures Inv(After(s, e).world)
    ensures forall d :: HasJob(s.world, d) ==> HasJob(After(s, e).world, d)
    ensures e.Put? && e.action.Enqueue? ==> HasJob(After(s, e).world, e.action.document)
  {
    if e.Put? || e.Step? {
      StepKeepsInv(s.world, e.action);
      StepKeepsJobs(s.world, e.action);
      if e.action.Enqueue? {
        EnqueueEffect(s.world, e.action.job, e.action.document, e.action.at);
      }
    }
  }

  /** Whatever the other sessions do, what the relay enqueued has its job ever after. */
  lemma {:induction false} PutsHaveJobs(s: State, es: seq<Event>, s': State)
    requires Inv(s.world) && Run(s, es, s')
    ensures Inv(s'.world)
    ensures forall e :: e in Own(es) && e.Put? && e.action.Enqueue? ==> HasJob(s'.world, e.action.document)
    decreases |es|
  {
    if es != [] {
      var before, e := es[..|es| - 1], es[|es| - 1];
      var mid :| Run(s, before, mid) && Leads(mid, e, s');
      PutsHaveJobs(s, before, mid);
      EventKeepsJobs(mid, e);
    }
  }

  // ---- what every session keeps to ----

  ghost predicate FailedSince(w: World, w': World, job: JobId) {
    exists k :: |w.outbox| <= k < |w'.outbox| && w'.outbox[k].job == job && w'.outbox[k].result.Rejected?
  }

  /** Jobs and results stay, and a job fails only with a result. */
  ghost predicate QueueMoves(w: World, w': World) {
    && w.outbox <= w'.outbox
    && forall job :: job in w.jobs ==>
         && job in w'.jobs && w'.jobs[job].document == w.jobs[job].document
         && (w'.jobs[job].status.Failed? && !w.jobs[job].status.Failed? ==> FailedSince(w, w', job))
  }

  /** The job is waiting, running or completed, or has failed since, with its result in the outbox. */
  ghost predicate Serves(w: World, w': World, job: JobId, d: Document) {
    && job in w'.jobs && w'.jobs[job].document == d
    && (w'.jobs[job].status.Failed? ==> FailedSince(w, w', job))
  }

  ghost predicate Started(s: State, s': State, i: nat) {
    i < |s'.rows| && exists job :: Serves(s.world, s'.world, job, s'.rows[i].payload)
  }

  ghost predicate HandedGrows(s: State, s': State) {
    && s.handed <= s'.handed
    && forall i :: i in s'.handed && i !in s.handed ==> Started(s, s', i)
  }

  /** What every session does, step by step and over any stretch of time. */
  ghost predicate Guarded(s: State, s': State) {
    && QueueMoves(s.world, s'.world)
    && RowsGrow(s.rows, s'.rows)
    && HandedGrows(s, s')
    && MarksFollow(s.rows, s'.rows, s'.handed)
  }

  lemma FailedSinceGrows(w: World, w': World, w'': World, job: JobId)
    requires w.outbox <= w'.outbox <= w''.outbox && (FailedSince(w, w', job) || FailedSince(w', w'', job))
    ensures FailedSince(w, w'', job)
  {
    if FailedSince(w, w', job) {
      var k :| |w.outbox| <= k < |w'.outbox| && w'.outbox[k].job == job && w'.outbox[k].result.Rejected?;
      assert w''.outbox[k] == w'.outbox[k];
    }
  }

  lemma QueueMovesTransitive(w: World, w': World, w'': World)
    requires QueueMoves(w, w') && QueueMoves(w', w'')
    ensures QueueMoves(w, w'')
  {
    forall job | job in w.jobs && w''.jobs[job].status.Failed? && !w.jobs[job].status.Failed?
      ensures FailedSince(w, w'', job)
    {
      FailedSinceGrows(w, w', w'', job);
    }
  }

  lemma StartedStays(s: State, s': State, s'': State, i: nat)
    requires s.world.outbox <= s'.world.outbox && QueueMoves(s'.world, s''.world) && RowsGrow(s'.rows, s''.rows)
    requires Started(s, s', i)
    ensures Started(s, s'', i)
  {
    var job :| Serves(s.world, s'.world, job, s'.rows[i].payload);
    if s''.world.jobs[job].status.Failed? {
      FailedSinceGrows(s.world, s'.world, s''.world, job);
    }
    assert Serves(s.world, s''.world, job, s''.rows[i].payload);
  }

  lemma StartedBefore(s: State, s': State, s'': State, i: nat)
    requires s.world.outbox <= s'.world.outbox <= s''.world.outbox && Started(s', s'', i)
    ensures Started(s, s'', i)
  {
    var job :| Serves(s'.world, s''.world, job, s''.rows[i].payload);
    if s''.world.jobs[job].status.Failed? {
      FailedSinceGrows(s.world, s'.world, s''.world, job);
    }
    assert Serves(s.world, s''.world, job, s''.rows[i].payload);
  }

  lemma HandedTransitive(s: State, s': State, s'': State)
    requires QueueMoves(s.world, s'.world) && QueueMoves(s'.world, s''.world) && RowsGrow(s'.rows, s''.rows)
    requires HandedGrows(s, s') && HandedGrows(s', s'')
    ensures HandedGrows(s, s'')
  {
    forall i | i in s''.handed && i !in s.handed ensures Started(s, s'', i) {
      if i in s'.handed {
        StartedStays(s, s', s'', i);
      } else {
        StartedBefore(s, s', s'', i);
      }
    }
  }

  lemma GuardedTransitive(s: State, s': State, s'': State)
    requires Guarded(s, s') && Guarded(s', s'')
    ensures Guarded(s, s'')
  {
    QueueMovesTransitive(s.world, s'.world, s''.world);
    HandedTransitive(s, s', s'');
  }

  lemma ActionMoves(w: World, a: Action)
    requires LedgerCovers(w) && Enabled(w, a)
    ensures QueueMoves(w, Next(w, a))
  {
    var w' := Next(w, a);
    forall job | job in w.jobs && w'.jobs[job].status.Failed? && !w.jobs[job].status.Failed?
      ensures FailedSince(w, w', job)
    {
      assert w'.outbox[|w.outbox|].job == job;
    }
  }

  lemma ActedIsGuarded(s: State, a: Action)
    requires Inv(s.world) && Enabled(s.world, a)
    ensures Guarded(s, Acted(s, a))
    ensures forall i :: i in RowsFor(s.rows, a) ==> Started(s, Acted(s, a), i)
  {
    var s' := Acted(s, a);
    ActionMoves(s.world, a);
    if a.Enqueue? {
      EnqueueEffect(s.world, a.job, a.document, a.at);
      forall i | i in RowsFor(s.rows, a) ensures Started(s, s', i) {
        assert Serves(s.world, s'.world, a.job, s'.rows[i].payload);
      }
    }
  }

  lemma EventIsGuarded(s: State, e: Event)
    requires Inv(s.world) && Possible(s, e)
    ensures Guarded(s, After(s, e))
  {
    match e
    case Put(a) => ActedIsGuarded(s, a);
    case Step(a) => ActedIsGuarded(s, a);
    case Mark(_) =>
    case Rows(_) =>
  }

  /** Every run keeps to the rules over its whole length. */
  lemma {:induction false} RunIsGuarded(s: State, es: seq<Event>, s': State)
    requires Inv(s.world) && Run(s, es, s')
    ensures Inv(s'.world) && Guarded(s, s')
    decreases |es|
  {
    if es != [] {
      var before, e := es[..|es| - 1], es[|es| - 1];
      var mid :| Run(s, before, mid) && Leads(mid, e, s');
      RunIsGuarded(s, before, mid);
      EventKeepsJobs(mid, e);
      EventIsGuarded(mid, e);
      GuardedTransitive(s, mid, s');
    }
  }

  /** What is left of an own event in the end, for row `i`. */
  ghost predicate Left(s: State, s': State, e: Event, i: nat) {
    match e
    case Put(a) => i < |s.rows| && a.Enqueue? && s.rows[i].payload == a.document ==> Started(s, s', i)
    case Mark(j) => j < |s'.rows| && s'.rows[j].published
    case _ => true
  }

  /** Whatever the others do after it, an own enqueue and an own mark show in the end. */
  lemma {:induction false} OwnEventsShow(s: State, es: seq<Event>, s': State, e: Event, i: nat)
    requires Inv(s.world) && Run(s, es, s') && e in Own(es)
    ensures Left(s, s', e, i)
    decreases |es|
  {
    var before, last := es[..|es| - 1], es[|es| - 1];
    var mid :| Run(s, before, mid) && Leads(mid, last, s');
    RunIsGuarded(s, before, mid);
    EventIsGuarded(mid, last);
    if e in Own(before) {
      OwnEventsShow(s, before, mid, e, i);
      if Started(s, mid, i) {
        StartedStays(s, mid, s', i);
      }
    } else if e.Put? {
      ActedIsGuarded(mid, e.action);
      if i in RowsFor(mid.rows, e.action) {
        StartedBefore(s, mid, s', i);
      }
    }
  }

  /** Own events so far: for each row in turn an enqueue of its document, then its mark. */
  ghost predicate Scripted(own: seq<Event>, rows: seq<Message<Document>>, ids: seq<nat>)
    requires RowIds(rows, ids)
  {
    && |own| <= 2 * |ids|
    && forall k :: 0 <= k < |own| ==> ScriptedAt(own[k], k, rows, ids)
  }

  ghost predicate ScriptedAt(e: Event, k: nat, rows: seq<Message<Document>>, ids: seq<nat>)
    requires RowIds(rows, ids) && k < 2 * |ids|
  {
    if k % 2 == 0 then e.Put? && e.action.Enqueue? && e.action.document == rows[ids[k / 2]].payload
    else e == Mark(ids[k / 2])
  }

  lemma ScriptGoesOn(own: seq<Event>, e: Event, rows: seq<Message<Document>>, ids: seq<nat>)
    requires RowIds(rows, ids) && Scripted(own, rows, ids) && |own| < 2 * |ids| && ScriptedAt(e, |own|, rows, ids)
    ensures Scripted(own + [e], rows, ids)
  {
  }

  lemma RowScripted(before: seq<Event>, own: seq<Event>, rows: seq<Message<Document>>, ids: seq<nat>, done: nat)
    requires RowIds(rows, ids) && done < |ids| && Scripted(before, rows, ids) && |before| == 2 * done && |own| <= 2
    requires |own| >= 1 ==> own[0].Put? && own[0].action.Enqueue? && own[0].action.document == rows[ids[done]].payload
    requires |own| == 2 ==> own[1] == Mark(ids[done])
    ensures Scripted(before + own, rows, ids)
  {
    if |own| == 0 {
      assert before + own == before;
    } else {
      ScriptGoesOn(before, own[0], rows, ids);
      if |own| == 1 {
        assert before + own == before + [own[0]];
      } else {
        ScriptGoesOn(before + [own[0]], own[1], rows, ids);
        assert before + own == before + [own[0]] + [own[1]];
      }
    }
  }

  /** A forwarded row is marked, and its job is there and was not left failed. */
  ghost predicate Done(s: State, s': State, i: nat) {
    i < |s'.rows| && s'.rows[i].published && Started(s, s', i)
  }

  lemma ForwardedIsDone(s: State, es: seq<Event>, s': State, ids: seq<nat>, k: nat)
    requires Inv(s.world) && Run(s, es, s') && RowIds(s.rows, ids) && Scripted(Own(es), s.rows, ids)
    requires k < |ids| && 2 * k + 1 < |Own(es)|
    ensures Done(s, s', ids[k])
  {
    var own := Own(es);
    assert ScriptedAt(own[2 * k], 2 * k, s.rows, ids) && ScriptedAt(own[2 * k + 1], 2 * k + 1, s.rows, ids);
    OwnEventsShow(s, es, s', own[2 * k], ids[k]);
    OwnEventsShow(s, es, s', own[2 * k + 1], ids[k]);
  }

  lemma AllDone(s: State, es: seq<Event>, s': State, limit: nat, done: nat)
    requires var ids := Unpublished(s.rows, limit);
             && RowIds(s.rows, ids) && Scripted(Own(es), s.rows, ids) && done <= |ids| && 2 * done <= |Own(es)|
    requires Inv(s.world) && Run(s, es, s')
    ensures Guarded(s, s')
    ensures forall k :: 0 <= k < done ==> Done(s, s', Unpublished(s.rows, limit)[k])
    ensures forall e :: e in Own(es) && e.Put? && e.action.Enqueue? ==> HasJob(s'.world, e.action.document)
  {
    RunIsGuarded(s, es, s');
    PutsHaveJobs(s, es, s');
    forall k | 0 <= k < done ensures Done(s, s', Unpublished(s.rows, limit)[k]) {
      ForwardedIsDone(s, es, s', Unpublished(s.rows, limit), k);
    }
  }

  lemma NoOwnersNoJob(w: World, document: Document, owners: set<JobId>)
    requires owners == (set j | j in w.jobs && w.jobs[j].document == document) && owners == {}
    ensures !HasJob(w, document)
  {
    assert forall j :: j in w.jobs && w.jobs[j].document == document ==> j in owners;
  }

  class ForwardRelay {
    /** Whether the i-th awaited statement throws; an insert whose generated id collides is one that does. */
    const breaks: nat -> bool
    var statements: nat
    var world: World
    var rows: seq<Message<Document>>
    ghost var handed: set<nat>

    constructor (breaks: nat -> bool, world: World, rows: seq<Message<Document>>)
      ensures this.breaks == breaks && statements == 0 && this.world == world && this.rows == rows && handed == {}
    {
      this.breaks, statements, this.world, this.rows, handed := breaks, 0, world, rows, {};
    }

    ghost function Now(): State
      reads this
    {
      State(world, rows, handed)
    }

    /** Row `id` is there, with that document. */
    ghost predicate Row(id: nat, document: Document)
      reads this
    {
      id < |rows| && rows[id].payload == document
    }

    /** The tables are reached from `start`, and the rows read then still agree with the jobs on owners. */
    ghost predicate At(start: State, es: seq<Event>)
      reads this
    {
      Inv(world) && Consistent(world, start.rows) && Run(start, es, Now())
    }

    /** Other sessions may act here; none gives a document of the outbox another owner. */
    method Yield(ghost start: State, ghost es: seq<Event>) returns (ghost es': seq<Event>)
      requires At(start, es)
      modifies this`world, this`rows, this`handed
      ensures At(start, es') && Own(es') == Own(es)
      ensures Guarded(old(Now()), Now())
    {
      es' := es;
    }

    method InsertJob(id: JobId, document: Document)
      requires Inv(world) && SameOwner(world, document) && id !in world.jobs && !HasJob(world, document)
      modifies this`world
      ensures Enabled(old(world), Enqueue(id, document, old(world).clock))
      ensures world == Next(old(world), Enqueue(id, document, old(world).clock))
    {
      EnqueueInserts(world, id, document);
      world := world.(jobs := world.jobs[id := NewRow(document, world.clock)],
                      ledger := world.ledger[id := Ledger(0, 0, 0)]);
    }

    /** The conflict branch of the upsert: only a FAILED job is re-armed. */
    method UpdateJob(id: JobId)
      requires Inv(world) && id in world.jobs
      modifies this`world
      ensures Enabled(old(world), Enqueue(id, old(world).jobs[id].document, old(world).clock))
      ensures world == Next(old(world), Enqueue(id, old(world).jobs[id].document, old(world).clock))
    {
      if world.jobs[id].status.Failed? {
        var row := Rearmed(world.jobs[id]);
        EnqueueRearms(world, id);
        world := world.(jobs := world.jobs[id := row],
                        ledger := world.ledger[id := Ledger(row.attempts, 0, world.ledger[id].rearms + 1)]);
      } else {
        EnqueueLeavesActiveJob(world, id, world.jobs[id].document, world.clock);
      }
    }

    /** The upsert, as one statement; an error may be reported for one that took effect. */
    method EnqueueDocument(document: Document) returns (thrown: bool, ghost took: bool, ghost act: Action)
      requires Inv(world) && SameOwner(world, document)
      modifies this`world, this`statements
      ensures statements == old(statements) + 1 && thrown == breaks(old(statements)) && (!thrown ==> took)
      ensures !took ==> world == old(world)
      ensures took ==>
                && act.Enqueue? && act.document == document && LedgerCovers(old(world)) && Enabled(old(world), act)
                && world == Next(old(world), act) && Inv(world) && HasJob(world, document)
    {
      thrown, took, act := breaks(statements), false, Tick(0);
      statements := statements + 1;
      var effective: bool := *;
      if thrown && !effective {
        return;
      }
      ghost var before := world;
      var owners := set j | j in world.jobs && world.jobs[j].document == document;
      var id: JobId;
      if owners == {} {
        ghost var unused := Above(world.jobs.Keys);
        assert unused !in world.jobs.Keys;
        id :| id !in world.jobs;
        NoOwnersNoJob(world, document, owners);
        InsertJob(id, document);
      } else {
        id :| id in owners;
        UpdateJob(id);
      }
      took, act := true, Enqueue(id, document, before.clock);
      EnqueueEffect(before, id, document, before.clock);
    }

    /** One row: enqueue its document, then mark it published. */
    method ForwardRow(document: Document, id: nat, ghost start: State, ghost es: seq<Event>)
        returns (thrown: bool, ghost es': seq<Event>, ghost own: seq<Event>)
      requires At(start, es) && Row(id, document) && id < |start.rows| && start.rows[id].payload == document
      modifies this
      ensures statements >= old(statements) && (thrown ==> !Smooth(breaks, old(statements), statements))
      ensures At(start, es') && Own(es') == Own(es) + own
      ensures |own| <= 2 && (|own| >= 1 ==> own[0].Put? && own[0].action.Enqueue? && own[0].action.document == document)
      ensures |own| == 2 ==> own[1] == Mark(id)
      ensures !thrown ==> |own| == 2
    {
      thrown, es', own := PutDocument(document, id, start, es);
      if !thrown {
        ghost var marked;
        thrown, es', marked := MarkPublished(id, start, es');
        own := own + if marked then [Mark(id)] else [];
      }
    }

    method PutDocument(document: Document, id: nat, ghost start: State, ghost es: seq<Event>)
        returns (thrown: bool, ghost es': seq<Event>, ghost own: seq<Event>)
      requires At(start, es) && Row(id, document) && id < |start.rows| && start.rows[id].payload == document
      modifies this
      ensures statements >= old(statements) && (thrown ==> !Smooth(breaks, old(statements), statements))
      ensures At(start, es') && Own(es') == Own(es) + own
      ensures |own| <= 1 && (|own| == 1 ==> own[0].Put? && own[0].action.Enqueue? && own[0].action.document == document)
      ensures !thrown ==> |own| == 1 && id < |rows| && id in handed
    {
      own := [];
      es' := Yield(start, es);
      ghost var before := Now();
      ghost var took, act;
      thrown, took, act := EnqueueDocument(document);
      if took {
        handed := handed + RowsFor(rows, act);
        OneMore(start, es', before, Put(act));
        es', own := es' + [Put(act)], [Put(act)];
        EnqueueKeepsConsistent(before.world, act, start.rows);
      }
    }

    method MarkPublished(id: nat, ghost start: State, ghost es: seq<Event>)
        returns (thrown: bool, ghost es': seq<Event>, ghost marked: bool)
      requires At(start, es) && id < |rows| && id in handed
      modifies this
      ensures statements >= old(statements) && (thrown ==> !Smooth(breaks, old(statements), statements))
      ensures At(start, es')
      ensures Own(es') == Own(es) + (if marked then [Mark(id)] else []) && (!thrown ==> marked)
    {
      marked := false;
      es' := Yield(start, es);
      thrown := breaks(statements);
      statements := statements + 1;
      var effective: bool := *;
      if thrown && !effective {
        return;
      }
      OneMore(start, es', Now(), Mark(id));
      es', marked := es' + [Mark(id)], true;
      rows := rows[id := rows[id].(published := true)];
    }

    /** The next row it read. */
    method ForwardNext(pending: seq<Message<Document>>, ids: seq<nat>, done: nat, ghost start: State,
                       ghost es: seq<Event>)
        returns (thrown: bool, ghost es': seq<Event>)
      requires pending == start.rows && RowIds(pending, ids) && done < |ids|
      requires Inv(start.world) && At(start, es) && Scripted(Own(es), pending, ids) && |Own(es)| == 2 * done
      modifies this
      ensures statements >= old(statements) && (thrown ==> !Smooth(breaks, old(statements), statements))
      ensures At(start, es') && Scripted(Own(es'), pending, ids)
      ensures 2 * done <= |Own(es')| <= 2 * done + 2 && (!thrown ==> |Own(es')| == 2 * done + 2)
    {
      RunIsGuarded(start, es, Now());
      ghost var own;
      thrown, es', own := ForwardRow(pending[ids[done]].payload, ids[done], start, es);
      RowScripted(Own(es), own, pending, ids, done);
    }

    /**
     The relay's own events are, for the first `done` rows it read and in order, an enqueue of the row's document and
     then its mark; when it throws, at most both of the next row more.  In the tables those rows are marked and their
     jobs were started.  It throws only if a statement did.  The tables move otherwise only by steps of other
     sessions, nobody marks a row before its document is enqueued, and every document the relay enqueued has its job
     in the end.
     */
    method Pump(limit: nat) returns (done: nat, thrown: bool, ghost es: seq<Event>)
      requires Inv(world) && Consistent(world, rows)
      modifies this
      ensures var ids, own := Unpublished(old(rows), limit), Own(es);
              && OldestUnpublished(old(rows), limit, ids) && done <= |ids| && (done < |ids| ==> thrown)
              && Scripted(own, old(rows), ids)
              && 2 * done <= |own| <= 2 * done + 2 && (!thrown ==> |own| == 2 * done)
              && forall k :: 0 <= k < done ==> Done(old(Now()), Now(), ids[k])
      ensures statements >= old(statements) && (thrown ==> !Smooth(breaks, old(statements), statements))
      ensures Inv(world) && Run(old(Now()), es, Now()) && Guarded(old(Now()), Now())
      ensures forall e :: e in Own(es) && e.Put? && e.action.Enqueue? ==> HasJob(world, e.action.document)
    {
      ghost var start := Now();
      UnpublishedFacts(rows, limit);
      UnpublishedAreOldest(rows, limit);
      var pending, ids := rows, Unpublished(rows, limit);
      done, thrown, es := 0, breaks(statements), [];
      statements := statements + 1;
      if thrown {
        AllDone(start, es, Now(), limit, done);
        return;
      }
      while done < |ids| && !thrown
        invariant done <= |ids| && At(start, es) && Scripted(Own(es), pending, ids)
        invariant statements >= old(statements) && (thrown ==> !Smooth(breaks, old(statements), statements))
        invariant if thrown then done < |ids| && 2 * done <= |Own(es)| <= 2 * done + 2 else |Own(es)| == 2 * done
        decreases |ids| - done, !thrown
      {
        thrown, es := ForwardNext(pending, ids, done, start, es);
        if !thrown {
          done := done + 1;
        }
      }
      AllDone(start, es, Now(), limit, done);
    }
  }
}
