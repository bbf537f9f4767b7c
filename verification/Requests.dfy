/**
 The outstanding requests of a connection: packet identifiers, the task that sends and
 resends a request, acknowledgements, the list of requests that wait for a connection,
 and the handshake between cancelling a task and clearing the table
 (source/client_channel_handler.c and source/client.c).

 Each method is one atomic step: what one thread does between two places where another
 may come in. User code that is called back may make requests itself, which then run
 inside the step that called it, so the requests being run form a stack.
 */
module Requests {
  import opened Options

  type Ptr = nat

  datatype Request = Request(id: nat, callback: bool, initiated: bool, completed: bool, cancelled: bool)

  datatype Outcome = SendError | SendComplete | SendOngoing

  /** Everything that can reach a request.
      heap: requests taken from the pool and not given back
      table: outstanding requests by identifier
      inHand: requests between being put in the table and being queued by their creators
      scheduled: requests whose task is with the channel
      pending: requests that wait for a connection
      running: requests whose task is being run, innermost last
      acking: the request whose acknowledgement is being handled
      released: what was given back to the pool, in order
      notified: the requests whose completion callback was called, in order
      stranded: requests that nothing refers to any more
      next: the name of the next request
      online: whether the connection is in its connected state */
  datatype Snap = Snap(
    heap: map<Ptr, Request>, table: map<nat, Ptr>,
    inHand: set<Ptr>, scheduled: set<Ptr>, pending: seq<Ptr>, running: seq<Ptr>, acking: Option<Ptr>,
    released: seq<Ptr>, notified: seq<Ptr>, stranded: set<Ptr>, next: Ptr, online: bool)

  predicate NoDuplicates(s: seq<Ptr>) {
    forall i, j | 0 <= i < j < |s| :: s[i] != s[j]
  }

  function Members(s: seq<Ptr>): set<Ptr> {
    set p | p in s
  }

  predicate Held(s: Snap, p: Ptr) {
    p in s.inHand || p in s.scheduled || p in s.pending || p in s.running
  }

  predicate InTable(s: Snap, p: Ptr)
    requires p in s.heap
  {
    s.heap[p].id in s.table && s.table[s.heap[p].id] == p
  }

  /** No request is in two places, or in one place twice. */
  predicate Separate(s: Snap) {
    && (forall p | p in s.scheduled :: p !in s.inHand)
    && (forall p | p in s.pending :: p !in s.inHand && p !in s.scheduled)
    && (forall p | p in s.running :: p !in s.inHand && p !in s.scheduled && p !in s.pending)
    && NoDuplicates(s.pending) && NoDuplicates(s.running)
  }

  predicate TableSound(s: Snap) {
    forall id | id in s.table :: 1 <= id <= 65535 && s.table[id] in s.heap && s.heap[s.table[id]].id == id
  }

  /** Where the request p is, loose being one that the current step has taken out of its place. */
  predicate Kept(s: Snap, loose: set<Ptr>, p: Ptr)
    requires p in s.heap
  {
    && (p in loose ==> !Held(s, p))
    && (!s.heap[p].cancelled ==> InTable(s, p) && (Held(s, p) || p in loose))
    && (s.heap[p].cancelled && InTable(s, p) ==> !Held(s, p) && p !in loose)
    && (p in s.inHand ==> !s.heap[p].initiated && !s.heap[p].completed)
    && (p in s.running ==> !s.heap[p].cancelled)
    && (p in s.stranded <==> !Held(s, p) && p !in loose && !InTable(s, p))
  }

  ghost predicate Custody(s: Snap, loose: set<Ptr>) {
    && (forall p | Held(s, p) || p in loose || p in s.stranded :: p in s.heap)
    && (forall p | p in s.heap :: Kept(s, loose, p))
  }

  ghost predicate AckSound(s: Snap, loose: set<Ptr>) {
    s.acking.Some? ==>
      var p := s.acking.value;
      p in s.heap && InTable(s, p) && s.heap[p].initiated && p !in s.running && p !in loose
  }

  /** Every request ever made is either live or was given back, once. */
  ghost predicate PoolSound(s: Snap) {
    && (forall p: Ptr :: p in s.heap || p in s.released <==> p < s.next)
    && (forall p | p in s.released :: p !in s.heap)
    && NoDuplicates(s.released)
  }

  /** Whoever is done, or is being acknowledged, was called back. */
  predicate Reported(s: Snap) {
    && (forall p | p in s.heap && s.heap[p].completed && s.heap[p].callback :: p in s.notified)
    && (s.acking.Some? && s.acking.value in s.heap && s.heap[s.acking.value].callback ==> s.acking.value in s.notified)
  }

  /** No callback was called twice. */
  predicate NotifiedOnce(s: Snap) {
    && NoDuplicates(s.notified)
    && (forall p | p in s.notified :: p < s.next && (p in s.heap ==> s.heap[p].completed || s.acking == Some(p)))
  }

  ghost predicate Sound(s: Snap, loose: set<Ptr>) {
    Separate(s) && TableSound(s) && Custody(s, loose) && AckSound(s, loose) && PoolSound(s) && Reported(s)
  }

  /** The search for an identifier: the smallest that is free, and 0 only when none is. The
      counter has sixteen bits and wraps around. */
  method FreeId(table: map<nat, Ptr>) returns (id: nat)
    requires 0 !in table
    ensures id <= 65535 && id !in table
    ensures forall j | 1 <= j < id :: j in table
    ensures id == 0 <==> forall j | 1 <= j <= 65535 :: j in table
  {
    id := 1;
    while id in table
      invariant id <= 65535
      invariant if id == 0 then forall j | 1 <= j <= 65535 :: j in table else forall j | 1 <= j < id :: j in table
      decreases if id == 0 then 0 else 65536 - id
    {
      id := (id + 1) % 65536;
    }
  }

  // ----- what each move keeps -----

  /** A new request, in the table and in its creator's hand. */
  function Reserved(s: Snap, id: nat, callback: bool): Snap {
    s.(heap := s.heap[s.next := Request(id, callback, false, false, false)], table := s.table[id := s.next],
       inHand := s.inHand + {s.next}, next := s.next + 1)
  }

  lemma ReservedSound(s: Snap, id: nat, callback: bool)
    requires Sound(s, {}) && 1 <= id <= 65535 && id !in s.table
    ensures Sound(Reserved(s, id, callback), {})
    ensures forall q | q in s.heap && !s.heap[q].cancelled :: s.heap[q].id != id
  {
    var s' := Reserved(s, id, callback);
    assert !Held(s, s.next);
    assert Custody(s', {}) by {
      forall p | p in s'.heap ensures Kept(s', {}, p) {
        if p != s.next { assert Kept(s, {}, p); }
      }
    }
    forall q | q in s.heap && !s.heap[q].cancelled ensures s.heap[q].id != id { assert Kept(s, {}, q); }
  }

  lemma SmallIds(s: Snap)
    requires Sound(s, {})
    ensures forall id | id in s.table :: 1 <= id <= 65535
  {
  }

  /** A step takes a request out of its place: from the channel, from its creator, or from the task function. */
  lemma TakeScheduled(s: Snap, p: Ptr)
    requires Sound(s, {}) && p in s.scheduled && s.acking.None?
    ensures p in s.heap && Sound(s.(scheduled := s.scheduled - {p}), {p})
  {
    var s' := s.(scheduled := s.scheduled - {p});
    forall q | q in s'.heap ensures Kept(s', {p}, q) { assert Kept(s, {}, q); }
  }

  lemma TakeInHand(s: Snap, p: Ptr)
    requires Sound(s, {}) && p in s.inHand
    ensures p in s.heap && !s.heap[p].initiated && Sound(s.(inHand := s.inHand - {p}), {p})
  {
    var s' := s.(inHand := s.inHand - {p});
    forall q | q in s'.heap ensures Kept(s', {p}, q) { assert Kept(s, {}, q); }
  }

  lemma TakeRunning(s: Snap)
    requires Sound(s, {}) && s.running != []
    ensures var p := s.running[|s.running| - 1];
            p in s.heap && !s.heap[p].cancelled && Sound(s.(running := s.running[..|s.running| - 1]), {p})
  {
    var p := s.running[|s.running| - 1];
    var s' := s.(running := s.running[..|s.running| - 1]);
    assert Held(s, p);
    forall q | q in s'.heap ensures Kept(s', {p}, q) { assert Kept(s, {}, q); }
  }

  /** And puts it in another. */
  lemma PutScheduled(s: Snap, p: Ptr)
    requires Sound(s, {p})
    ensures Sound(s.(scheduled := s.scheduled + {p}), {})
  {
    var s' := s.(scheduled := s.scheduled + {p});
    assert Kept(s, {p}, p);
    forall q | q in s'.heap ensures Kept(s', {}, q) { assert Kept(s, {p}, q); }
  }

  lemma PutPending(s: Snap, p: Ptr)
    requires Sound(s, {p})
    ensures Sound(s.(pending := s.pending + [p]), {})
  {
    var s' := s.(pending := s.pending + [p]);
    assert Kept(s, {p}, p);
    forall q | q in s'.heap ensures Kept(s', {}, q) { assert Kept(s, {p}, q); }
  }

  lemma PutRunning(s: Snap, p: Ptr)
    requires Sound(s, {p}) && p in s.heap && !s.heap[p].cancelled
    ensures Sound(s.(running := s.running + [p]), {})
  {
    var s' := s.(running := s.running + [p]);
    assert Kept(s, {p}, p);
    forall q | q in s'.heap ensures Kept(s', {}, q) { assert Kept(s, {p}, q); }
  }

  /** A request goes back to the pool. One that was not cancelled is the table's entry for
      its identifier, and leaves the table with it. */
  function Freed(s: Snap, p: Ptr): Snap
    requires p in s.heap
  {
    s.(heap := s.heap - {p}, table := if s.heap[p].cancelled then s.table else s.table - {s.heap[p].id},
       released := s.released + [p])
  }

  lemma FreedSound(s: Snap, p: Ptr)
    requires Sound(s, {p})
    ensures p in s.heap && Sound(Freed(s, p), {})
    ensures !s.heap[p].cancelled ==> InTable(s, p)
  {
    var s' := Freed(s, p);
    assert Kept(s, {p}, p);
    forall q | q in s'.heap ensures Kept(s', {}, q) { assert Kept(s, {p}, q); }
  }

  /** A cancelled task leaves the request to the table, or to nobody if the table let go of it before. */
  function Cancelled(s: Snap, p: Ptr): Snap
    requires p in s.heap
  {
    s.(heap := s.heap[p := s.heap[p].(cancelled := true)],
       stranded := if s.heap[p].cancelled then s.stranded + {p} else s.stranded)
  }

  lemma CancelledSound(s: Snap, p: Ptr)
    requires Sound(s, {p})
    ensures p in s.heap && Sound(Cancelled(s, p), {})
  {
    var s' := Cancelled(s, p);
    assert Kept(s, {p}, p);
    forall q | q in s'.heap ensures Kept(s', {}, q) { assert Kept(s, {p}, q); }
  }

  /** The table lets go of one entry: the request is given back if its task was cancelled, else told to free itself. */
  function Cleared(s: Snap, id: nat): Snap
    requires id in s.table && s.table[id] in s.heap
  {
    var p := s.table[id];
    if s.heap[p].cancelled then s.(table := s.table - {id}, heap := s.heap - {p}, released := s.released + [p])
    else s.(table := s.table - {id}, heap := s.heap[p := s.heap[p].(cancelled := true)])
  }

  lemma ClearedSound(s: Snap, id: nat)
    requires Sound(s, {}) && id in s.table && s.acking.None? && s.running == []
    ensures s.table[id] in s.heap && Sound(Cleared(s, id), {})
  {
    var p, s' := s.table[id], Cleared(s, id);
    if s.heap[p].cancelled { ClearedGone(s, id, s'); } else { ClearedMarked(s, id, s'); }
  }

  lemma ClearedGone(s: Snap, id: nat, s': Snap)
    requires Sound(s, {}) && id in s.table && s.acking.None? && s.heap[s.table[id]].cancelled && s' == Cleared(s, id)
    ensures Sound(s', {})
  {
    assert Kept(s, {}, s.table[id]);
    forall q | q in s'.heap ensures Kept(s', {}, q) { assert Kept(s, {}, q); }
  }

  lemma ClearedMarked(s: Snap, id: nat, s': Snap)
    requires Sound(s, {}) && id in s.table && s.acking.None? && s.running == [] && !s.heap[s.table[id]].cancelled
    requires s' == Cleared(s, id)
    ensures Sound(s', {})
  {
    assert Kept(s, {}, s.table[id]);
    forall q | q in s'.heap ensures Kept(s', {}, q) { assert Kept(s, {}, q); }
  }

  // ----- flags -----

  lemma InitiatedSound(s: Snap, p: Ptr)
    requires Sound(s, {p}) && p in s.heap
    ensures Sound(s.(heap := s.heap[p := s.heap[p].(initiated := true)]), {p})
  {
    var s' := s.(heap := s.heap[p := s.heap[p].(initiated := true)]);
    forall q | q in s'.heap ensures Kept(s', {p}, q) { assert Kept(s, {p}, q); }
  }

  /** The request is done, and its callback, if it has one, was called. */
  function Done(s: Snap, p: Ptr): Snap
    requires p in s.heap
  {
    s.(heap := s.heap[p := s.heap[p].(completed := true)],
       notified := if s.heap[p].callback then s.notified + [p] else s.notified)
  }

  lemma DoneSound(s: Snap, p: Ptr)
    requires Sound(s, {}) && p in s.running && p in s.heap
    ensures Sound(Done(s, p), {})
  {
    var s' := Done(s, p);
    forall q | q in s'.heap ensures Kept(s', {}, q) { assert Kept(s, {}, q); }
  }

  // ----- steps -----

  datatype Step =
    | Reserve(callback: bool)
    | Enqueue(request: Ptr, onThread: bool)
    | TaskRuns(request: Ptr)
    | TaskCancelled(request: Ptr)
    | Sent(outcome: Outcome)
    | Finish
    | AckBegin(id: nat)
    | AckEnd
    | Clear(id: nat)
    | Flush
    | SetOnline(online: bool)

  /** Nothing of the connection is running on its event loop. */
  predicate Idle(s: Snap) { s.running == [] && s.acking.None? }

  predicate IsFreeId(s: Snap, id: nat) {
    1 <= id <= 65535 && id !in s.table && forall j | 1 <= j < id :: j in s.table
  }

  /** When a step can happen. What belongs to the event loop waits for what runs there. An
      acknowledgement is of a request that is outstanding and was sent. */
  ghost predicate Enabled(s: Snap, step: Step) {
    match step
    case Reserve(_) => exists id :: IsFreeId(s, id)
    case Enqueue(p, _) => p in s.inHand
    case TaskRuns(p) => p in s.scheduled && Idle(s)
    case TaskCancelled(p) => p in s.scheduled && Idle(s)
    case Sent(_) => s.running != [] && var p := s.running[|s.running| - 1]; p in s.heap && !s.heap[p].completed
    case Finish => s.running != []
    case AckBegin(id) => Idle(s) && id in s.table && var p := s.table[id]; p in s.heap && s.heap[p].initiated
    case AckEnd => s.running == [] && s.acking.Some?
    case Clear(id) => Idle(s) && id in s.table
    case Flush => Idle(s)
    case SetOnline(_) => true
  }

  /** s_request_timeout_task on a request that its caller holds, up to where it calls out to send. */
  function Begin(s: Snap, p: Ptr): Snap
    requires p in s.heap
  {
    if s.heap[p].cancelled || s.heap[p].completed then Freed(s, p) else s.(running := s.running + [p])
  }

  lemma BeginSound(s: Snap, p: Ptr)
    requires Sound(s, {p})
    ensures p in s.heap && Sound(Begin(s, p), {})
  {
    FreedSound(s, p);
    if !s.heap[p].cancelled && !s.heap[p].completed { PutRunning(s, p); }
  }

  /** The end of s_request_timeout_task. */
  function End(s: Snap, p: Ptr): Snap
    requires p in s.heap
  {
    if s.heap[p].completed then Freed(s, p)
    else
      var s := s.(heap := s.heap[p := s.heap[p].(initiated := true)]);
      if s.online then s.(scheduled := s.scheduled + {p}) else s.(pending := s.pending + [p])
  }

  lemma EndSound(s: Snap, p: Ptr)
    requires Sound(s, {p})
    ensures p in s.heap && Sound(End(s, p), {})
  {
    hide Sound;
    FreedSound(s, p);
    InitiatedSound(s, p);
    var s1 := s.(heap := s.heap[p := s.heap[p].(initiated := true)]);
    PutScheduled(s1, p);
    PutPending(s1, p);
  }

  /** All that waited for a connection is with the channel. */
  function Flushed(s: Snap): Snap {
    s.(scheduled := s.scheduled + Members(s.pending), pending := [])
  }

  /** What a step does. */
  ghost function Next(s: Snap, step: Step): Snap
    requires Sound(s, {}) && Enabled(s, step)
  {
    match step
    case Reserve(callback) =>
      var id :| IsFreeId(s, id);
      Reserved(s, id, callback)
    case Enqueue(p, onThread) =>
      TakeInHand(s, p);
      var s := s.(inHand := s.inHand - {p});
      if !s.online then s.(pending := s.pending + [p])
      else if onThread then Begin(s, p)
      else s.(scheduled := s.scheduled + {p})
    case TaskRuns(p) =>
      TakeScheduled(s, p);
      Begin(s.(scheduled := s.scheduled - {p}), p)
    case TaskCancelled(p) =>
      TakeScheduled(s, p);
      Cancelled(s.(scheduled := s.scheduled - {p}), p)
    case Sent(outcome) => if outcome == SendOngoing then s else Done(s, s.running[|s.running| - 1])
    case Finish =>
      TakeRunning(s);
      End(s.(running := s.running[..|s.running| - 1]), s.running[|s.running| - 1])
    case AckBegin(id) =>
      var p := s.table[id];
      s.(acking := Some(p), notified := if s.heap[p].callback then s.notified + [p] else s.notified)
    case AckEnd => var p := s.acking.value; s.(acking := None, heap := s.heap[p := s.heap[p].(completed := true)])
    case Clear(id) => Cleared(s, id)
    case Flush => Flushed(s)
    case SetOnline(online) => s.(online := online)
  }

  lemma AckBeginSound(s: Snap, p: Ptr)
    requires Sound(s, {}) && Idle(s) && p in s.heap && InTable(s, p) && s.heap[p].initiated
    ensures Sound(s.(acking := Some(p), notified := if s.heap[p].callback then s.notified + [p] else s.notified), {})
  {
    var s' := s.(acking := Some(p), notified := if s.heap[p].callback then s.notified + [p] else s.notified);
    forall q | q in s'.heap ensures Kept(s', {}, q) { assert Kept(s, {}, q); }
  }

  lemma AckEndSound(s: Snap, p: Ptr)
    requires Sound(s, {}) && s.acking == Some(p)
    ensures p in s.heap && Sound(s.(acking := None, heap := s.heap[p := s.heap[p].(completed := true)]), {})
  {
    var s' := s.(acking := None, heap := s.heap[p := s.heap[p].(completed := true)]);
    forall q | q in s'.heap ensures Kept(s', {}, q) { assert Kept(s, {}, q); }
  }

  lemma FlushSound(s: Snap)
    requires Sound(s, {})
    ensures Sound(Flushed(s), {})
  {
    var s' := Flushed(s);
    forall q | q in s'.heap ensures Kept(s', {}, q) { assert Kept(s, {}, q); }
  }

  lemma OnlineSound(s: Snap, online: bool)
    requires Sound(s, {})
    ensures Sound(s.(online := online), {})
  {
    var s' := s.(online := online);
    forall q | q in s'.heap ensures Kept(s', {}, q) { assert Kept(s, {}, q); }
  }

  lemma StepSound(s: Snap, step: Step)
    requires Sound(s, {}) && Enabled(s, step)
    ensures Sound(Next(s, step), {})
  {
    hide Sound;
    match step
    case Reserve(callback) =>
      var id :| IsFreeId(s, id);
      ReservedSound(s, id, callback);
    case Enqueue(p, onThread) =>
      TakeInHand(s, p);
      var s1 := s.(inHand := s.inHand - {p});
      BeginSound(s1, p);
      PutScheduled(s1, p);
      PutPending(s1, p);
    case TaskRuns(p) =>
      TakeScheduled(s, p);
      BeginSound(s.(scheduled := s.scheduled - {p}), p);
    case TaskCancelled(p) =>
      TakeScheduled(s, p);
      CancelledSound(s.(scheduled := s.scheduled - {p}), p);
    case Sent(outcome) => if outcome != SendOngoing { DoneSound(s, s.running[|s.running| - 1]); }
    case Finish =>
      TakeRunning(s);
      EndSound(s.(running := s.running[..|s.running| - 1]), s.running[|s.running| - 1]);
    case AckBegin(id) => AckedEntry(s, id); AckBeginSound(s, s.table[id]);
    case AckEnd => AckEndSound(s, s.acking.value);
    case Clear(id) => ClearedSound(s, id);
    case Flush => FlushSound(s);
    case SetOnline(online) => OnlineSound(s, online);
  }

  lemma AckedEntry(s: Snap, id: nat)
    requires Sound(s, {}) && id in s.table
    ensures s.table[id] in s.heap && s.heap[s.table[id]].id == id && InTable(s, s.table[id])
  {
  }

  /** What went back to the pool stays there, and no notification is taken back. */
  lemma OnlyGrows(s: Snap, step: Step)
    requires Sound(s, {}) && Enabled(s, step)
    ensures s.released <= Next(s, step).released && s.notified <= Next(s, step).notified
    ensures s.stranded <= Next(s, step).stranded && s.next <= Next(s, step).next
  {
    hide Sound;
  }

  // ----- runs -----

  function Front(steps: seq<Step>): seq<Step>
    requires steps != []
  {
    steps[..|steps| - 1]
  }

  function Final(steps: seq<Step>): Step
    requires steps != []
  {
    steps[|steps| - 1]
  }

  /** Every step can happen where it does. */
  ghost predicate Legal(s: Snap, steps: seq<Step>)
    requires Sound(s, {})
    decreases |steps|, 0
  {
    steps == [] || (Legal(s, Front(steps)) && Enabled(Exec(s, Front(steps)), Final(steps)))
  }

  /** The state that a run leaves. */
  ghost function Exec(s: Snap, steps: seq<Step>): (r: Snap)
    requires Sound(s, {}) && Legal(s, steps)
    ensures Sound(r, {})
    decreases |steps|, 1
  {
    if steps == [] then s
    else
      StepSound(Exec(s, Front(steps)), Final(steps));
      Next(Exec(s, Front(steps)), Final(steps))
  }

  /** A connection that made no request yet. */
  ghost function Start(): (s: Snap)
    ensures Sound(s, {})
  {
    Snap(map[], map[], {}, {}, [], [], None, [], [], {}, 0, false)
  }

  lemma OneMoreStep(s: Snap, steps: seq<Step>, step: Step)
    requires Sound(s, {}) && Legal(s, steps)
    ensures Legal(s, steps + [step]) <==> Enabled(Exec(s, steps), step)
    ensures Legal(s, steps + [step]) ==> Exec(s, steps + [step]) == Next(Exec(s, steps), step)
  {
    hide Sound, Next, Enabled;
    assert Front(steps + [step]) == steps && Final(steps + [step]) == step;
  }

  /** After any interleaving of steps, every request is where it should be, and nothing that
      was given back, notified or stranded is taken back. */
  lemma {:induction false} RunsAreSound(s: Snap, steps: seq<Step>)
    requires Sound(s, {}) && Legal(s, steps)
    ensures var s' := Exec(s, steps);
            Sound(s', {}) && s.released <= s'.released && s.notified <= s'.notified && s.stranded <= s'.stranded
    decreases |steps|
  {
    hide Sound, Next, Enabled;
    if steps != [] {
      RunsAreSound(s, Front(steps));
      OnlyGrows(Exec(s, Front(steps)), Final(steps));
    }
  }

  // ----- what every run keeps -----

  /** How often a request is in some place. */
  function Places(s: Snap, p: Ptr): nat {
    (if p in s.inHand then 1 else 0) + (if p in s.scheduled then 1 else 0) + multiset(s.pending)[p]
      + multiset(s.running)[p]
  }

  lemma {:induction false} CountIs(s: seq<Ptr>, p: Ptr)
    requires NoDuplicates(s)
    ensures multiset(s)[p] == if p in s then 1 else 0
  {
    if s != [] {
      var n := |s| - 1;
      CountIs(s[..n], p);
      assert s == s[..n] + [s[n]];
    }
  }

  /** On every interleaving: a live request that was not cancelled is the table's entry for its
      identifier and in exactly one place, so no two share one; whatever was made is live or
      was given back exactly once; and exactly the stranded requests are out of reach. */
  lemma CustodyOverRuns(steps: seq<Step>)
    requires Legal(Start(), steps)
    ensures var s := Exec(Start(), steps);
            && (forall p | p in s.heap && !s.heap[p].cancelled :: InTable(s, p) && Places(s, p) == 1)
            && (forall p, q | p in s.heap && q in s.heap && !s.heap[p].cancelled && !s.heap[q].cancelled && p != q ::
                  s.heap[p].id != s.heap[q].id)
            && (forall p | p in s.heap && s.heap[p].cancelled && InTable(s, p) :: Places(s, p) == 0)
            && (forall p | 0 <= p < s.next :: (if p in s.heap then 1 else 0) + multiset(s.released)[p] == 1)
            && (forall p | p in s.heap :: p in s.stranded <==> !InTable(s, p) && Places(s, p) == 0)
  {
    hide Exec, Legal, Next, Enabled, Sound, Start;
    RunsAreSound(Start(), steps);
    SoundMeans(Exec(Start(), steps));
  }

  lemma SoundMeans(s: Snap)
    requires Sound(s, {})
    ensures forall p | p in s.heap && !s.heap[p].cancelled :: InTable(s, p) && Places(s, p) == 1
    ensures forall p, q | p in s.heap && q in s.heap && !s.heap[p].cancelled && !s.heap[q].cancelled && p != q ::
              s.heap[p].id != s.heap[q].id
    ensures forall p | p in s.heap && s.heap[p].cancelled && InTable(s, p) :: Places(s, p) == 0
    ensures forall p | 0 <= p < s.next :: (if p in s.heap then 1 else 0) + multiset(s.released)[p] == 1
    ensures forall p | p in s.heap :: p in s.stranded <==> !InTable(s, p) && Places(s, p) == 0
  {
    forall p: Ptr ensures multiset(s.released)[p] == if p in s.released then 1 else 0 { CountIs(s.released, p); }
    forall p | p in s.heap ensures Kept(s, {}, p) && Places(s, p) == if Held(s, p) then 1 else 0 {
      assert Kept(s, {}, p);
      CountIs(s.pending, p);
      CountIs(s.running, p);
    }
  }

  /** The steps that end the claim of a request on its identifier: its entry is cleared, or
      its task finds it completed. */
  predicate Frees(s: Snap, step: Step, p: Ptr)
    requires p in s.heap
  {
    || step == Clear(s.heap[p].id)
    || (s.heap[p].completed && step == TaskRuns(p))
    || (s.heap[p].completed && step == Finish && s.running != [] && s.running[|s.running| - 1] == p)
  }

  lemma EntryStays(s: Snap, step: Step, p: Ptr)
    requires Sound(s, {}) && Enabled(s, step) && p in s.heap && InTable(s, p) && !Frees(s, step, p)
    ensures var s' := Next(s, step); p in s'.heap && InTable(s', p) && s'.heap[p].id == s.heap[p].id
  {
    hide Sound, Kept, Custody;
    Facts(s, p);
    match step
    case Reserve(_) =>
    case Enqueue(q, _) =>
      HeldFacts(s, q);
      TakenOrNot(s, s.(inHand := s.inHand - {q}), q, p);
    case TaskRuns(q) =>
      HeldFacts(s, q);
      TakenOrNot(s, s.(scheduled := s.scheduled - {q}), q, p);
    case TaskCancelled(q) =>
    case Sent(_) =>
    case Finish =>
      var q := s.running[|s.running| - 1];
      HeldFacts(s, q);
      TakenOrNot(s, s.(running := s.running[..|s.running| - 1]), q, p);
    case AckBegin(_) =>
    case AckEnd =>
    case Clear(id) => AckedEntry(s, id);
    case Flush =>
    case SetOnline(_) =>
  }

  /** No step of the run is such a step of p. */
  ghost predicate Undisturbed(s: Snap, steps: seq<Step>, p: Ptr)
    requires Sound(s, {}) && Legal(s, steps)
    decreases |steps|
  {
    steps == []
    || (Undisturbed(s, Front(steps), p)
        && var before := Exec(s, Front(steps)); p in before.heap && !Frees(before, Final(steps), p))
  }

  /** An identifier stays taken, acknowledged or not: over any run, until the task of its
      request gives it back or the table is cleared. */
  lemma {:induction false} IdStaysTaken(s: Snap, steps: seq<Step>, p: Ptr)
    requires Sound(s, {}) && Legal(s, steps) && p in s.heap && InTable(s, p) && Undisturbed(s, steps, p)
    ensures var s' := Exec(s, steps);
            p in s'.heap && InTable(s', p) && s'.heap[p].id == s.heap[p].id && !IsFreeId(s', s.heap[p].id)
    decreases |steps|
  {
    hide Sound, Next, Enabled, Frees;
    if steps != [] {
      IdStaysTaken(s, Front(steps), p);
      EntryStays(Exec(s, Front(steps)), Final(steps), p);
    }
  }

  // ----- how long a request lives -----

  /** The steps that give a request back to the pool. */
  predicate GivesBack(s: Snap, step: Step, p: Ptr)
    requires p in s.heap
  {
    match step
    case Enqueue(q, onThread) => q == p && s.online && onThread && s.heap[p].cancelled
    case TaskRuns(q) => q == p && (s.heap[p].cancelled || s.heap[p].completed)
    case Finish => s.running != [] && s.running[|s.running| - 1] == p && s.heap[p].completed
    case Clear(id) => id in s.table && s.table[id] == p && s.heap[p].cancelled
    case _ => false
  }

  lemma LiveStep(s: Snap, step: Step, p: Ptr)
    requires Sound(s, {}) && Enabled(s, step) && p in s.heap
    ensures p in Next(s, step).heap <==> !GivesBack(s, step, p)
  {
    hide Sound, Kept, Custody;
    match step
    case Reserve(_) => Facts(s, p);
    case Enqueue(q, _) => HeldFacts(s, q);
    case TaskRuns(q) => HeldFacts(s, q);
    case TaskCancelled(q) => HeldFacts(s, q);
    case Finish => HeldFacts(s, s.running[|s.running| - 1]);
    case AckEnd => AckEndSound(s, s.acking.value);
    case Clear(id) => AckedEntry(s, id);
    case _ =>
  }

  /** No step of the run gives p back. */
  ghost predicate Spared(s: Snap, steps: seq<Step>, p: Ptr)
    requires Sound(s, {}) && Legal(s, steps)
    decreases |steps|
  {
    steps == []
    || (Spared(s, Front(steps), p)
        && var before := Exec(s, Front(steps)); p in before.heap && !GivesBack(before, Final(steps), p))
  }

  /** Whatever comes in between, a request is live exactly until a step gives it back: so long can its
      creator read the identifier to return. */
  lemma {:induction false} LiveUntilGivenBack(s: Snap, steps: seq<Step>, p: Ptr)
    requires Sound(s, {}) && Legal(s, steps) && p in s.heap
    ensures p in Exec(s, steps).heap <==> Spared(s, steps, p)
    decreases |steps|
  {
    hide Sound, Next, Enabled, GivesBack;
    if steps != [] {
      var before, step := Exec(s, Front(steps)), Final(steps);
      LiveUntilGivenBack(s, Front(steps), p);
      if p in before.heap {
        LiveStep(before, step, p);
      } else {
        GoneStays(s, steps, p);
      }
    }
  }

  /** Names are not used again. */
  lemma GoneStays(s: Snap, steps: seq<Step>, p: Ptr)
    requires Sound(s, {}) && Legal(s, steps) && p in s.heap && steps != [] && p !in Exec(s, Front(steps)).heap
    ensures p !in Exec(s, steps).heap
  {
    hide Sound, Next, Enabled;
    var before, step := Exec(s, Front(steps)), Final(steps);
    Facts(s, p);
    NextGrows(s, Front(steps));
    if p in Next(before, step).heap { NewRequest(before, step, p); }
  }

  lemma {:induction false} NextGrows(s: Snap, steps: seq<Step>)
    requires Sound(s, {}) && Legal(s, steps)
    ensures s.next <= Exec(s, steps).next
    decreases |steps|
  {
    hide Sound, Next, Enabled;
    if steps != [] {
      NextGrows(s, Front(steps));
      OnlyGrows(Exec(s, Front(steps)), Final(steps));
    }
  }

  // ----- what the steps of a run say about its end -----

  /** The connection is online if it was last said to be. */
  predicate OnlineAfter(steps: seq<Step>)
    decreases |steps|
  {
    steps != [] && if Final(steps).SetOnline? then Final(steps).online else OnlineAfter(Front(steps))
  }

  /** For each request that was made, whether it has a callback. Requests are named by their place. */
  function Made(steps: seq<Step>): seq<bool>
    decreases |steps|
  {
    if steps == [] then []
    else if Final(steps).Reserve? then Made(Front(steps)) + [Final(steps).callback]
    else Made(Front(steps))
  }

  lemma {:induction false} MadeOverRuns(steps: seq<Step>)
    requires Legal(Start(), steps)
    ensures Exec(Start(), steps).online == OnlineAfter(steps) && Exec(Start(), steps).next == |Made(steps)|
    decreases |steps|
  {
    hide Sound, Next, Enabled;
    if steps != [] {
      MadeOverRuns(Front(steps));
      MadeStep(Exec(Start(), Front(steps)), Final(steps));
    }
  }

  lemma MadeStep(s: Snap, step: Step)
    requires Sound(s, {}) && Enabled(s, step)
    ensures Next(s, step).online == if step.SetOnline? then step.online else s.online
    ensures Next(s, step).next == if step.Reserve? then s.next + 1 else s.next
  {
    hide Sound;
  }

  /** p is the request whose task is being run, or would be but for those that run inside it. */
  predicate Innermost(s: Snap, p: Ptr) { s.running != [] && s.running[|s.running| - 1] == p }

  /** The steps that complete a request: its sending ends, well or not, or its acknowledgement was handled. */
  predicate Completes(s: Snap, step: Step, p: Ptr) {
    match step
    case Sent(outcome) => outcome != SendOngoing && Innermost(s, p)
    case AckEnd => s.acking == Some(p)
    case _ => false
  }

  /** The steps that cancel it: its task is cancelled, or its entry is cleared. */
  predicate Cancels(s: Snap, step: Step, p: Ptr) {
    match step
    case TaskCancelled(q) => q == p
    case Clear(id) => id in s.table && s.table[id] == p
    case _ => false
  }

  ghost predicate CompletedAfter(steps: seq<Step>, p: Ptr)
    requires Legal(Start(), steps)
    decreases |steps|
  {
    steps != []
    && (CompletedAfter(Front(steps), p) || Completes(Exec(Start(), Front(steps)), Final(steps), p))
  }

  ghost predicate CancelledAfter(steps: seq<Step>, p: Ptr)
    requires Legal(Start(), steps)
    decreases |steps|
  {
    steps != [] && (CancelledAfter(Front(steps), p) || Cancels(Exec(Start(), Front(steps)), Final(steps), p))
  }

  /** Its task was run to its end, and left it to wait for its acknowledgement. */
  ghost predicate InitiatedAfter(steps: seq<Step>, p: Ptr)
    requires Legal(Start(), steps)
    decreases |steps|
  {
    steps != []
    && (|| InitiatedAfter(Front(steps), p)
        || (Final(steps).Finish? && Innermost(Exec(Start(), Front(steps)), p) && !CompletedAfter(Front(steps), p)))
  }

  lemma FlagStep(s: Snap, step: Step, p: Ptr)
    requires Sound(s, {}) && Enabled(s, step) && p in s.heap && p in Next(s, step).heap
    ensures var r, r' := s.heap[p], Next(s, step).heap[p];
            && (r'.completed <==> r.completed || Completes(s, step, p))
            && (r'.cancelled <==> r.cancelled || Cancels(s, step, p))
            && (r'.initiated <==> r.initiated || (step.Finish? && Innermost(s, p) && !r.completed))
            && r'.callback == r.callback
  {
    hide Sound, Kept, Custody;
    match step
    case Reserve(_) => Facts(s, p);
    case Enqueue(q, _) => HeldFacts(s, q);
    case TaskRuns(q) => HeldFacts(s, q);
    case TaskCancelled(q) => HeldFacts(s, q);
    case Finish => HeldFacts(s, s.running[|s.running| - 1]);
    case AckEnd => AckEndSound(s, s.acking.value);
    case Clear(id) => AckedEntry(s, id);
    case _ =>
  }

  lemma NewFlags(s: Snap, step: Step)
    requires Sound(s, {}) && Enabled(s, step) && step.Reserve?
    ensures var s' := Next(s, step);
            s.next in s'.heap && var r := s'.heap[s.next];
            r.callback == step.callback && !r.initiated && !r.completed && !r.cancelled
  {
    hide Sound;
  }

  lemma OldFlags(s: Snap, step: Step, p: Ptr)
    requires Sound(s, {}) && Enabled(s, step)
    ensures Completes(s, step, p) || Cancels(s, step, p) || (step.Finish? && Innermost(s, p)) ==> p < s.next
  {
    hide Sound, Kept, Custody;
    match step
    case Sent(_) => SentFacts(s, s.running[|s.running| - 1]);
    case TaskCancelled(q) => HeldFacts(s, q); Facts(s, q);
    case Finish => SentFacts(s, s.running[|s.running| - 1]);
    case AckEnd => AckEndSound(s, s.acking.value); Facts(s, s.acking.value);
    case Clear(id) => AckedEntry(s, id); Facts(s, s.table[id]);
    case _ =>
  }

  /** On every run, the marks on a live request are what happened to it. */
  lemma {:induction false} MarksOverRuns(steps: seq<Step>, p: Ptr)
    requires Legal(Start(), steps)
    ensures var s := Exec(Start(), steps);
            && (p >= s.next ==> !CompletedAfter(steps, p) && !CancelledAfter(steps, p) && !InitiatedAfter(steps, p))
            && (p in s.heap ==>
                  && (s.heap[p].completed <==> CompletedAfter(steps, p))
                  && (s.heap[p].cancelled <==> CancelledAfter(steps, p))
                  && (s.heap[p].initiated <==> InitiatedAfter(steps, p))
                  && p < |Made(steps)| && s.heap[p].callback == Made(steps)[p])
    decreases |steps|
  {
    hide Sound, Next, Enabled, Completes, Cancels, Innermost;
    if steps != [] {
      var s, step := Exec(Start(), Front(steps)), Final(steps);
      MarksOverRuns(Front(steps), p);
      MadeOverRuns(Front(steps));
      MadeStep(s, step);
      OldFlags(s, step, p);
      if p in Next(s, step).heap {
        if p in s.heap {
          FlagStep(s, step, p);
        } else {
          NewRequest(s, step, p);
          NewFlags(s, step);
        }
      }
    }
  }

  /** p was made and not queued since. */
  predicate InHandAfter(steps: seq<Step>, p: Ptr)
    decreases |steps|
  {
    && steps != []
    && match Final(steps)
       case Reserve(_) => p == |Made(Front(steps))| || InHandAfter(Front(steps), p)
       case Enqueue(q, _) => q != p && InHandAfter(Front(steps), p)
       case _ => InHandAfter(Front(steps), p)
  }

  /** p was last queued, or put back by its task, while the connection was not online, and the list was not
      flushed since. */
  ghost predicate WaitsAfter(steps: seq<Step>, p: Ptr)
    requires Legal(Start(), steps)
    decreases |steps|
  {
    && steps != []
    && match Final(steps)
       case Enqueue(q, _) => if q == p then !OnlineAfter(Front(steps)) else WaitsAfter(Front(steps), p)
       case Finish =>
         if Innermost(Exec(Start(), Front(steps)), p)
         then !CompletedAfter(Front(steps), p) && !OnlineAfter(Front(steps))
         else WaitsAfter(Front(steps), p)
       case Flush => false
       case _ => WaitsAfter(Front(steps), p)
  }

  /** p was last queued from another thread, or put back by its task, while the connection was online, or it
      waited for a connection when the list was flushed; and its task was not run or cancelled since. */
  ghost predicate ScheduledAfter(steps: seq<Step>, p: Ptr)
    requires Legal(Start(), steps)
    decreases |steps|
  {
    && steps != []
    && match Final(steps)
       case Enqueue(q, onThread) =>
         if q == p then OnlineAfter(Front(steps)) && !onThread else ScheduledAfter(Front(steps), p)
       case Finish =>
         if Innermost(Exec(Start(), Front(steps)), p)
         then !CompletedAfter(Front(steps), p) && OnlineAfter(Front(steps))
         else ScheduledAfter(Front(steps), p)
       case Flush => ScheduledAfter(Front(steps), p) || WaitsAfter(Front(steps), p)
       case TaskRuns(q) => q != p && ScheduledAfter(Front(steps), p)
       case TaskCancelled(q) => q != p && ScheduledAfter(Front(steps), p)
       case _ => ScheduledAfter(Front(steps), p)
  }

  /** The task of p was run, by the channel or at once on its thread, when p was neither done nor cancelled, and
      did not end since. */
  ghost predicate RunsAfter(steps: seq<Step>, p: Ptr)
    requires Legal(Start(), steps)
    decreases |steps|
  {
    && steps != []
    && match Final(steps)
       case Enqueue(q, onThread) =>
         if q == p then OnlineAfter(Front(steps)) && onThread && !CancelledAfter(Front(steps), p)
         else RunsAfter(Front(steps), p)
       case TaskRuns(q) =>
         if q == p then !CancelledAfter(Front(steps), p) && !CompletedAfter(Front(steps), p)
         else RunsAfter(Front(steps), p)
       case Finish => !Innermost(Exec(Start(), Front(steps)), p) && RunsAfter(Front(steps), p)
       case _ => RunsAfter(Front(steps), p)
  }

  lemma PendingStep(s: Snap, step: Step, p: Ptr)
    requires Sound(s, {}) && Enabled(s, step)
    ensures step.Finish? && Innermost(s, p) ==> p in s.heap
    ensures p in Next(s, step).pending <==>
              match step
              case Enqueue(q, _) => if q == p then !s.online else p in s.pending
              case Finish => if Innermost(s, p) then !s.heap[p].completed && !s.online else p in s.pending
              case Flush => false
              case _ => p in s.pending
  {
    hide Kept, Custody, TableSound, PoolSound, Reported, AckSound;
    match step
    case Enqueue(q, _) => HeldFacts(s, q);
    case TaskRuns(q) => HeldFacts(s, q);
    case Finish => HeldFacts(s, s.running[|s.running| - 1]);
    case _ =>
  }

  lemma ScheduledStep(s: Snap, step: Step, p: Ptr)
    requires Sound(s, {}) && Enabled(s, step)
    ensures step.Finish? && Innermost(s, p) ==> p in s.heap
    ensures p in Next(s, step).scheduled <==>
              match step
              case Enqueue(q, onThread) => if q == p then s.online && !onThread else p in s.scheduled
              case Finish => if Innermost(s, p) then !s.heap[p].completed && s.online else p in s.scheduled
              case Flush => p in s.scheduled || p in s.pending
              case TaskRuns(q) => q != p && p in s.scheduled
              case TaskCancelled(q) => q != p && p in s.scheduled
              case _ => p in s.scheduled
  {
    hide Kept, Custody, TableSound, PoolSound, Reported, AckSound;
    match step
    case Enqueue(q, _) => HeldFacts(s, q);
    case TaskRuns(q) => HeldFacts(s, q);
    case Finish => HeldFacts(s, s.running[|s.running| - 1]);
    case _ =>
  }

  lemma RunningStep(s: Snap, step: Step, p: Ptr)
    requires Sound(s, {}) && Enabled(s, step)
    ensures (step.Enqueue? || step.TaskRuns?) && step.request == p ==> p in s.heap
    ensures p in Next(s, step).running <==>
              match step
              case Enqueue(q, onThread) =>
                if q == p then s.online && onThread && !s.heap[p].cancelled else p in s.running
              case TaskRuns(q) => if q == p then !s.heap[p].cancelled && !s.heap[p].completed else p in s.running
              case Finish => !Innermost(s, p) && p in s.running
              case _ => p in s.running
  {
    hide Kept, Custody, TableSound, PoolSound, Reported, AckSound;
    match step
    case Enqueue(q, _) => HeldFacts(s, q);
    case TaskRuns(q) => HeldFacts(s, q);
    case Finish => HeldFacts(s, s.running[|s.running| - 1]);
    case _ =>
  }

  lemma InHandStep(s: Snap, step: Step, p: Ptr)
    requires Sound(s, {}) && Enabled(s, step)
    ensures p in Next(s, step).inHand <==>
              match step
              case Reserve(_) => p == s.next || p in s.inHand
              case Enqueue(q, _) => q != p && p in s.inHand
              case _ => p in s.inHand
  {
    hide Sound;
  }

  /** On every run, where a request is, is what its steps say: with its creator, with the channel, waiting for a
      connection, or being run. */
  lemma {:induction false} WhereaboutsOverRuns(steps: seq<Step>, p: Ptr)
    requires Legal(Start(), steps)
    ensures var s := Exec(Start(), steps);
            && (p in s.inHand <==> InHandAfter(steps, p))
            && (p in s.pending <==> WaitsAfter(steps, p))
            && (p in s.scheduled <==> ScheduledAfter(steps, p))
            && (p in s.running <==> RunsAfter(steps, p))
    decreases |steps|
  {
    hide Sound, Next, Enabled, Innermost;
    if steps != [] {
      var s, step := Exec(Start(), Front(steps)), Final(steps);
      WhereaboutsOverRuns(Front(steps), p);
      MarksOverRuns(Front(steps), p);
      MadeOverRuns(Front(steps));
      InHandStep(s, step, p);
      PendingStep(s, step, p);
      ScheduledStep(s, step, p);
      RunningStep(s, step, p);
    }
  }

  /** The requests that a step calls back: one that is done, or is acknowledged, if it has a callback. */
  ghost function Calls(steps: seq<Step>): seq<Ptr>
    requires Legal(Start(), steps)
    decreases |steps|
  {
    if steps == [] then []
    else Calls(Front(steps)) + Called(Exec(Start(), Front(steps)), Made(Front(steps)), Final(steps))
  }

  function Called(s: Snap, made: seq<bool>, step: Step): seq<Ptr> {
    match step
    case Sent(outcome) =>
      if outcome == SendOngoing || s.running == [] then [] else IfMade(made, s.running[|s.running| - 1])
    case AckBegin(id) => if id in s.table then IfMade(made, s.table[id]) else []
    case _ => []
  }

  function IfMade(made: seq<bool>, p: Ptr): seq<Ptr> { if p < |made| && made[p] then [p] else [] }

  lemma CalledStep(s: Snap, made: seq<bool>, step: Step)
    requires Sound(s, {}) && Enabled(s, step)
    requires forall p | p in s.heap :: p < |made| && s.heap[p].callback == made[p]
    ensures Next(s, step).notified == s.notified + Called(s, made, step)
  {
    hide Sound, Kept, Custody;
    match step
    case Sent(_) => SentFacts(s, s.running[|s.running| - 1]);
    case AckBegin(id) => AckedEntry(s, id);
    case _ =>
  }

  /** On every run, the callbacks that were called are those, in order. */
  lemma {:induction false} CallsOverRuns(steps: seq<Step>)
    requires Legal(Start(), steps)
    ensures Exec(Start(), steps).notified == Calls(steps)
    decreases |steps|
  {
    hide Sound, Next, Enabled, Called;
    if steps != [] {
      CallsOverRuns(Front(steps));
      var s := Exec(Start(), Front(steps));
      forall p | p in s.heap ensures p < |Made(Front(steps))| && s.heap[p].callback == Made(Front(steps))[p] {
        MarksOverRuns(Front(steps), p);
      }
      CalledStep(s, Made(Front(steps)), Final(steps));
    }
  }

  /** The handling of an acknowledgement has begun and not ended. */
  predicate AckingAfter(steps: seq<Step>)
    decreases |steps|
  {
    steps != [] && (Final(steps).AckBegin? || (!Final(steps).AckEnd? && AckingAfter(Front(steps))))
  }

  lemma {:induction false} AckingOverRuns(steps: seq<Step>)
    requires Legal(Start(), steps)
    ensures Exec(Start(), steps).acking.Some? <==> AckingAfter(steps)
    decreases |steps|
  {
    hide Sound, Next, Enabled;
    if steps != [] {
      AckingOverRuns(Front(steps));
      AckingStep(Exec(Start(), Front(steps)), Final(steps));
    }
  }

  lemma AckingStep(s: Snap, step: Step)
    requires Sound(s, {}) && Enabled(s, step)
    ensures Next(s, step).acking.Some? <==> step.AckBegin? || (!step.AckEnd? && s.acking.Some?)
  {
    hide Sound;
  }

  ghost predicate NoneRunsAfter(steps: seq<Step>)
    requires Legal(Start(), steps)
  {
    forall p: Ptr :: !RunsAfter(steps, p)
  }

  /** The event loop has nothing to do: no task is being run, and no acknowledgement handled. */
  ghost predicate IdleAfter(steps: seq<Step>)
    requires Legal(Start(), steps)
  {
    !AckingAfter(steps) && NoneRunsAfter(steps)
  }

  /** Which steps can come after a run. */
  ghost predicate PossibleAfter(steps: seq<Step>, step: Step)
    requires Legal(Start(), steps)
  {
    var s := Exec(Start(), steps);
    match step
    case Reserve(_) => exists id: nat :: 1 <= id <= 65535 && id !in s.table
    case Enqueue(p, _) => InHandAfter(steps, p)
    case TaskRuns(p) => ScheduledAfter(steps, p) && IdleAfter(steps)
    case TaskCancelled(p) => ScheduledAfter(steps, p) && IdleAfter(steps)
    case Sent(_) => s.running != [] && !CompletedAfter(steps, s.running[|s.running| - 1])
    case Finish => !NoneRunsAfter(steps)
    case AckBegin(id) => id in s.table && InitiatedAfter(steps, s.table[id]) && IdleAfter(steps)
    case AckEnd => AckingAfter(steps) && NoneRunsAfter(steps)
    case Clear(id) => id in s.table && IdleAfter(steps)
    case Flush => IdleAfter(steps)
    case SetOnline(_) => true
  }

  lemma NobodyRuns(steps: seq<Step>)
    requires Legal(Start(), steps)
    ensures Exec(Start(), steps).running == [] <==> NoneRunsAfter(steps)
    ensures Idle(Exec(Start(), steps)) <==> IdleAfter(steps)
  {
    hide Sound, Exec, Legal, RunsAfter, AckingAfter;
    var s := Exec(Start(), steps);
    forall p: Ptr ensures p in s.running <==> RunsAfter(steps, p) { WhereaboutsOverRuns(steps, p); }
    AckingOverRuns(steps);
    if s.running != [] {
      WhereaboutsOverRuns(steps, s.running[0]);
      assert RunsAfter(steps, s.running[0]);
    }
  }

  /** While an identifier is free, there is a least. */
  lemma {:induction false} LeastFreeId(s: Snap, id: nat)
    requires 1 <= id <= 65535 && id !in s.table
    ensures exists least :: IsFreeId(s, least)
    decreases id
  {
    if j :| 1 <= j < id && j !in s.table {
      LeastFreeId(s, j);
    } else {
      assert IsFreeId(s, id);
    }
  }

  /** A run can go on by exactly the steps that its own steps make possible. */
  lemma RunsGoOn(steps: seq<Step>, step: Step)
    requires Legal(Start(), steps)
    ensures Legal(Start(), steps + [step]) <==> PossibleAfter(steps, step)
  {
    hide Sound, Exec, Legal, Next, Idle, IdleAfter, NoneRunsAfter, ScheduledAfter, InHandAfter, WaitsAfter,
         AckingAfter, RunsAfter, CompletedAfter, CancelledAfter, InitiatedAfter;
    var s := Exec(Start(), steps);
    OneMoreStep(Start(), steps, step);
    NobodyRuns(steps);
    match step
    case Reserve(_) => if id :| 1 <= id <= 65535 && id !in s.table { LeastFreeId(s, id); }
    case Enqueue(p, _) => WhereaboutsOverRuns(steps, p);
    case TaskRuns(p) => WhereaboutsOverRuns(steps, p);
    case TaskCancelled(p) => WhereaboutsOverRuns(steps, p);
    case Sent(_) =>
      if s.running != [] {
        SentFacts(s, s.running[|s.running| - 1]);
        MarksOverRuns(steps, s.running[|s.running| - 1]);
      }
    case AckBegin(id) =>
      if id in s.table {
        AckedEntry(s, id);
        MarksOverRuns(steps, s.table[id]);
      }
    case AckEnd => AckingOverRuns(steps);
    case _ =>
  }

  // ----- callbacks -----

  /** An acknowledgement of a request that is already done, which the code does not look for. */
  predicate LateAck(s: Snap, step: Step) {
    step.AckBegin? && step.id in s.table
    && var p := s.table[step.id];
       p in s.heap && s.heap[p].completed && s.heap[p].callback
  }

  ghost predicate NoLateAcks(s: Snap, steps: seq<Step>)
    requires Sound(s, {}) && Legal(s, steps)
    decreases |steps|
  {
    steps == [] || (NoLateAcks(s, Front(steps)) && !LateAck(Exec(s, Front(steps)), Final(steps)))
  }

  lemma StepNotifies(s: Snap, step: Step)
    requires Sound(s, {}) && Enabled(s, step) && NotifiedOnce(s) && !LateAck(s, step)
    ensures NotifiedOnce(Next(s, step))
  {
    hide Sound, Kept, Custody;
    match step
    case Enqueue(q, _) => HeldFacts(s, q);
    case TaskRuns(q) => HeldFacts(s, q);
    case TaskCancelled(q) => HeldFacts(s, q);
    case Sent(_) => SentFacts(s, s.running[|s.running| - 1]);
    case Finish => HeldFacts(s, s.running[|s.running| - 1]);
    case AckBegin(id) => Facts(s, s.table[id]);
    case AckEnd => AckEndSound(s, s.acking.value);
    case Clear(id) => AckedEntry(s, id);
    case _ =>
  }

  lemma SentFacts(s: Snap, p: Ptr)
    requires Sound(s, {}) && p in s.running
    ensures p in s.heap && p < s.next && s.acking != Some(p)
  {
    assert Held(s, p);
  }

  lemma LateAckRepeats(s: Snap, step: Step)
    requires Sound(s, {}) && Enabled(s, step) && LateAck(s, step)
    ensures !NoDuplicates(Next(s, step).notified)
  {
    hide Custody, Separate, PoolSound, TableSound, AckSound;
    var p := s.table[step.id];
    var i :| 0 <= i < |s.notified| && s.notified[i] == p;
    var n' := Next(s, step).notified;
    assert n'[i] == p == n'[|s.notified|];
  }

  lemma DuplicatesStay(a: seq<Ptr>, b: seq<Ptr>)
    requires a <= b && NoDuplicates(b)
    ensures NoDuplicates(a)
  {
    assert forall i | 0 <= i < |a| :: a[i] == b[i];
  }

  /** Over every run from the start, no callback is called twice if and only if no
      acknowledgement comes for a request that is done. */
  lemma {:induction false} NotifiedOverRuns(steps: seq<Step>)
    requires Legal(Start(), steps)
    ensures NoDuplicates(Exec(Start(), steps).notified) <==> NoLateAcks(Start(), steps)
    ensures NoLateAcks(Start(), steps) ==> NotifiedOnce(Exec(Start(), steps))
    decreases |steps|
  {
    hide Sound, Next, Enabled, LateAck, NoDuplicates;
    if steps == [] {
      NothingNotified();
    } else {
      var before, step := Exec(Start(), Front(steps)), Final(steps);
      NotifiedOverRuns(Front(steps));
      OnlyGrows(before, step);
      if NoLateAcks(Start(), Front(steps)) {
        if LateAck(before, step) { LateAckRepeats(before, step); } else { StepNotifies(before, step); }
      } else if NoDuplicates(Next(before, step).notified) {
        DuplicatesStay(before.notified, Next(before, step).notified);
      }
    }
  }

  lemma NothingNotified()
    ensures NotifiedOnce(Start())
  {
  }

  // ----- requests that are never given back -----

  lemma NewRequest(s: Snap, step: Step, p: Ptr)
    requires Sound(s, {}) && Enabled(s, step) && p in Next(s, step).heap && p !in s.heap
    ensures step.Reserve? && InTable(Next(s, step), p) && p == s.next
  {
    hide Sound, Kept, Custody;
    match step
    case Enqueue(q, _) => HeldFacts(s, q);
    case TaskRuns(q) => HeldFacts(s, q);
    case TaskCancelled(q) => HeldFacts(s, q);
    case Finish => HeldFacts(s, s.running[|s.running| - 1]);
    case AckEnd => AckEndSound(s, s.acking.value);
    case Clear(id) => AckedEntry(s, id);
    case _ =>
  }

  lemma FreedIsGone(s: Snap, step: Step, p: Ptr)
    requires Sound(s, {}) && Enabled(s, step) && p in s.heap && p in Next(s, step).heap
    ensures Frees(s, step, p) ==> step == Clear(s.heap[p].id)
  {
    hide Sound;
  }

  /** A request leaves the table, alive, only when its entry is cleared, and never returns. */
  lemma EntryStep(s: Snap, step: Step, p: Ptr)
    requires Sound(s, {}) && Enabled(s, step) && p in Next(s, step).heap && p in s.heap
    ensures InTable(Next(s, step), p) <==> InTable(s, p) && step != Clear(s.heap[p].id)
  {
    hide Sound, Kept, Custody;
    Facts(s, p);
    FreedIsGone(s, step, p);
    if InTable(s, p) && step != Clear(s.heap[p].id) {
      EntryStays(s, step, p);
    } else if step.Clear? {
      AckedEntry(s, step.id);
    }
  }

  /** Some step of the run cleared the entry of p. */
  ghost predicate WasCleared(s: Snap, steps: seq<Step>, p: Ptr)
    requires Sound(s, {}) && Legal(s, steps)
    decreases |steps|
  {
    && steps != []
    && (|| WasCleared(s, Front(steps), p)
        || (var before := Exec(s, Front(steps));
            Final(steps).Clear? && Final(steps).id in before.table && before.table[Final(steps).id] == p))
  }

  /** And a later step cancelled its task. */
  ghost predicate ClearedThenCancelled(s: Snap, steps: seq<Step>, p: Ptr)
    requires Sound(s, {}) && Legal(s, steps)
    decreases |steps|
  {
    && steps != []
    && (|| ClearedThenCancelled(s, Front(steps), p)
        || (Final(steps) == TaskCancelled(p) && WasCleared(s, Front(steps), p)))
  }

  /** A live request is out of the table exactly when its entry was cleared. */
  lemma {:induction false} OutOfTable(steps: seq<Step>, p: Ptr)
    requires Legal(Start(), steps) && p in Exec(Start(), steps).heap
    ensures !InTable(Exec(Start(), steps), p) <==> WasCleared(Start(), steps, p)
    decreases |steps|
  {
    hide Sound, Next, Enabled, InTable;
    if steps != [] {
      var before, step := Exec(Start(), Front(steps)), Final(steps);
      if p in before.heap {
        OutOfTable(Front(steps), p);
        EntryStep(before, step, p);
        EntryIs(before, step, p);
      } else {
        NewRequest(before, step, p);
        ClearedIsOlder(Start(), Front(steps), p);
      }
    }
  }

  lemma EntryIs(s: Snap, step: Step, p: Ptr)
    requires Sound(s, {}) && Enabled(s, step) && p in s.heap
    ensures InTable(s, p) && step == Clear(s.heap[p].id) <==> step.Clear? && step.id in s.table && s.table[step.id] == p
  {
    hide Sound;
    if step.Clear? { AckedEntry(s, step.id); }
  }

  lemma {:induction false} ClearedIsOlder(s: Snap, steps: seq<Step>, p: Ptr)
    requires Sound(s, {}) && Legal(s, steps)
    ensures WasCleared(s, steps, p) ==> p < Exec(s, steps).next
    decreases |steps|
  {
    hide Sound, Next, Enabled;
    if steps != [] {
      var before, step := Exec(s, Front(steps)), Final(steps);
      ClearedIsOlder(s, Front(steps), p);
      OnlyGrows(before, step);
      if step.Clear? && step.id in before.table {
        AckedEntry(before, step.id);
        Facts(before, before.table[step.id]);
      }
    }
  }

  lemma StrandedStep(s: Snap, step: Step, p: Ptr)
    requires Sound(s, {}) && Enabled(s, step)
    ensures step == TaskCancelled(p) ==> p in s.heap
    ensures p in Next(s, step).stranded <==>
              p in s.stranded || (step == TaskCancelled(p) && !InTable(s, p))
  {
    hide Sound, Kept, Custody;
    match step
    case Enqueue(q, _) => HeldFacts(s, q);
    case TaskRuns(q) => HeldFacts(s, q);
    case TaskCancelled(q) => HeldFacts(s, q);
    case Finish => HeldFacts(s, s.running[|s.running| - 1]);
    case _ =>
  }

  /** Over every run from the start: a request is stranded exactly when its entry was cleared
      before its task was cancelled. */
  lemma {:induction false} StrandedExactly(steps: seq<Step>, p: Ptr)
    requires Legal(Start(), steps)
    ensures p in Exec(Start(), steps).stranded <==> ClearedThenCancelled(Start(), steps, p)
    decreases |steps|
  {
    hide Sound, Next, Enabled, InTable;
    if steps != [] {
      var before, step := Exec(Start(), Front(steps)), Final(steps);
      StrandedExactly(Front(steps), p);
      StrandedStep(before, step, p);
      if step == TaskCancelled(p) { OutOfTable(Front(steps), p); }
    } else {
      assert Exec(Start(), steps) == Start();
    }
  }

  /** And then it stays out of reach and is never given back, whatever follows. */
  lemma StrandedForEver(s: Snap, steps: seq<Step>, p: Ptr)
    requires Sound(s, {}) && Legal(s, steps) && p in s.stranded
    ensures var s' := Exec(s, steps);
            p in s'.heap && p !in s'.released && Places(s', p) == 0 && !InTable(s', p)
  {
    hide Sound, Exec, Legal, InTable;
    RunsAreSound(s, steps);
    var s' := Exec(s, steps);
    StrandedIsLive(s', p);
    SoundMeans(s');
  }

  lemma StrandedIsLive(s: Snap, p: Ptr)
    requires Sound(s, {}) && p in s.stranded
    ensures p in s.heap && p !in s.released
  {
  }

  /** It happens: a request that waited for a connection when the table was cleared, and whose
      task was cancelled on the next channel. */
  lemma StrandingRun()
    ensures var steps := [Reserve(false), Enqueue(0, false), Clear(1), Flush, TaskCancelled(0)];
            Legal(Start(), steps) && Exec(Start(), steps).stranded == {0}
  {
    hide Sound, Legal, Exec, Next, Enabled;
    var r, e, c, f, t := Reserve(false), Enqueue(0, false), Clear(1), Flush, TaskCancelled(0);
    var s0 := Start();
    NoSteps(s0);
    FirstRequest(s0);
    var s1 := OneStepOn(s0, [], r, [r]);
    FirstQueued(s1);
    var s2 := OneStepOn(s0, [r], e, [r, e]);
    FirstCleared(s2);
    var s3 := OneStepOn(s0, [r, e], c, [r, e, c]);
    FirstFlushed(s3);
    var s4 := OneStepOn(s0, [r, e, c], f, [r, e, c, f]);
    FirstCancelled(s4);
    var s5 := OneStepOn(s0, [r, e, c, f], t, [r, e, c, f, t]);
  }

  lemma OneStepOn(s: Snap, steps: seq<Step>, step: Step, all: seq<Step>) returns (s': Snap)
    requires Sound(s, {}) && Legal(s, steps) && Enabled(Exec(s, steps), step) && all == steps + [step]
    ensures Legal(s, all) && s' == Exec(s, all) == Next(Exec(s, steps), step)
  {
    hide Sound, Legal, Exec, Next, Enabled;
    OneMoreStep(s, steps, step);
    s' := Exec(s, all);
  }

  lemma FirstRequest(s: Snap)
    requires s == Start()
    ensures Enabled(s, Reserve(false)) && Next(s, Reserve(false)) == Reserved(s, 1, false)
  {
    assert IsFreeId(s, 1);
    OneFreeId(s);
  }

  lemma FirstQueued(s: Snap)
    requires Sound(s, {}) && s == Reserved(Start(), 1, false)
    ensures Enabled(s, Enqueue(0, false))
    ensures var s' := Next(s, Enqueue(0, false)); s' == s.(inHand := {}, pending := [0])
  {
    hide Sound;
    assert s.inHand - {0} == {} && [] + [0] == [0];
  }

  lemma FirstCleared(s: Snap)
    requires Sound(s, {}) && s == Reserved(Start(), 1, false).(inHand := {}, pending := [0])
    ensures Enabled(s, Clear(1))
    ensures Next(s, Clear(1)) == s.(table := map[], heap := map[0 := Request(1, false, false, false, true)])
  {
    hide Sound;
  }

  lemma FirstFlushed(s: Snap)
    requires Sound(s, {}) && s.pending == [0] && s.scheduled == {} && Idle(s)
    ensures Enabled(s, Flush) && Next(s, Flush) == s.(scheduled := {0}, pending := [])
  {
    hide Sound;
  }

  lemma FirstCancelled(s: Snap)
    requires Sound(s, {}) && s.scheduled == {0} && Idle(s) && s.stranded == {}
    requires 0 in s.heap && s.heap[0].cancelled
    ensures Enabled(s, TaskCancelled(0)) && Next(s, TaskCancelled(0)).stranded == {0}
  {
    hide Sound;
  }

  /** A callback does run twice: a request that is acknowledged again before its task cleans it up. */
  lemma RepeatedCallback()
    ensures var steps := [SetOnline(true), Reserve(true), Enqueue(0, true), Finish, AckBegin(1), AckEnd, AckBegin(1)];
            Legal(Start(), steps) && Exec(Start(), steps).notified == [0, 0]
  {
    hide Sound, Legal, Exec, Next, Enabled;
    var o, r, e, f, a, d := SetOnline(true), Reserve(true), Enqueue(0, true), Finish, AckBegin(1), AckEnd;
    var s0 := Start();
    NoSteps(s0);
    RepeatedOnline(s0);
    var s1 := OneStepOn(s0, [], o, [o]);
    RepeatedRequest(s1);
    var s2 := OneStepOn(s0, [o], r, [o, r]);
    RepeatedRun(s2);
    var s3 := OneStepOn(s0, [o, r], e, [o, r, e]);
    RepeatedFinish(s3);
    var s4 := OneStepOn(s0, [o, r, e], f, [o, r, e, f]);
    RepeatedAck(s4);
    var s5 := OneStepOn(s0, [o, r, e, f], a, [o, r, e, f, a]);
    RepeatedDone(s5);
    var s6 := OneStepOn(s0, [o, r, e, f, a], d, [o, r, e, f, a, d]);
    RepeatedAck(s6);
    var s7 := OneStepOn(s0, [o, r, e, f, a, d], a, [o, r, e, f, a, d, a]);
  }

  lemma RepeatedOnline(s: Snap)
    requires s == Start()
    ensures Enabled(s, SetOnline(true)) && Next(s, SetOnline(true)) == s.(online := true)
  {
    hide Sound;
  }

  lemma RepeatedRequest(s: Snap)
    requires Sound(s, {}) && s == Start().(online := true)
    ensures Enabled(s, Reserve(true)) && Next(s, Reserve(true)) == Reserved(s, 1, true)
  {
    hide Sound;
    assert IsFreeId(s, 1);
    OneFreeId(s);
  }

  lemma RepeatedRun(s: Snap)
    requires Sound(s, {}) && s == Reserved(Start().(online := true), 1, true)
    ensures Enabled(s, Enqueue(0, true)) && Next(s, Enqueue(0, true)) == s.(inHand := {}, running := [0])
  {
    hide Sound;
    assert s.inHand - {0} == {} && [] + [0] == [0];
  }

  lemma RepeatedFinish(s: Snap)
    requires Sound(s, {}) && s == Reserved(Start().(online := true), 1, true).(inHand := {}, running := [0])
    ensures Enabled(s, Finish)
    ensures Next(s, Finish)
            == s.(running := [], scheduled := {0}, heap := map[0 := Request(1, true, true, false, false)])
  {
    hide Sound;
    assert s.running[..0] == [] && s.scheduled + {0} == {0};
  }

  lemma RepeatedAck(s: Snap)
    requires Sound(s, {}) && Idle(s) && 1 in s.table && s.table[1] == 0
    requires 0 in s.heap && s.heap[0].initiated && s.heap[0].callback
    ensures Enabled(s, AckBegin(1))
    ensures Next(s, AckBegin(1)) == s.(acking := Some(0), notified := s.notified + [0])
  {
    hide Sound;
  }

  lemma RepeatedDone(s: Snap)
    requires Sound(s, {}) && s.running == [] && s.acking == Some(0) && 0 in s.heap
    ensures Enabled(s, AckEnd)
    ensures Next(s, AckEnd) == s.(acking := None, heap := s.heap[0 := s.heap[0].(completed := true)])
  {
    hide Sound;
  }

  lemma NoSteps(s: Snap)
    requires Sound(s, {})
    ensures Legal(s, []) && Exec(s, []) == s
  {
  }

  lemma Facts(s: Snap, p: Ptr)
    requires Sound(s, {}) && p in s.heap
    ensures p < s.next
  {
  }

  lemma HeldFacts(s: Snap, q: Ptr)
    requires Sound(s, {}) && Held(s, q)
    ensures q in s.heap && (InTable(s, q) <==> !s.heap[q].cancelled)
    ensures q in s.inHand ==> !s.heap[q].completed
    ensures q in s.running ==> !s.heap[q].cancelled
  {
    assert Kept(s, {}, q);
  }

  /** Running or ending another task leaves an entry of the table alone. */
  lemma TakenOrNot(s: Snap, s1: Snap, q: Ptr, p: Ptr)
    requires p in s.heap && q in s.heap && InTable(s, p) && (InTable(s, q) <==> !s.heap[q].cancelled)
    requires s1.heap == s.heap && s1.table == s.table && (p == q ==> !s.heap[p].completed)
    ensures var s' := Begin(s1, q); p in s'.heap && InTable(s', p) && s'.heap[p].id == s.heap[p].id
    ensures var s' := End(s1, q); !s.heap[q].cancelled ==>
            p in s'.heap && InTable(s', p) && s'.heap[p].id == s.heap[p].id
  {
  }

  /** How far clearing has come. */
  ghost predicate Clearing(s: Snap, now: Snap) {
    && (forall id | id in now.table :: id in s.table && now.table[id] == s.table[id])
    && (forall p | p in now.heap :: p in s.heap && now.heap[p].id == s.heap[p].id
                                    && (InTable(now, p) || !InTable(s, p) ==>
                                        now.heap[p].cancelled == s.heap[p].cancelled))
    && (forall p | p in s.heap :: p in now.heap <==>
        !(s.heap[p].cancelled && InTable(s, p) && s.heap[p].id !in now.table))
  }

  lemma ClearingStart(s: Snap)
    ensures Clearing(s, s)
  {
  }

  lemma ClearingEnd(s: Snap, now: Snap)
    requires Clearing(s, now) && now.table == map[]
    ensures forall p | p in s.heap :: p in now.heap <==> !(s.heap[p].cancelled && InTable(s, p))
  {
  }

  lemma ClearingStep(s: Snap, now: Snap, id: nat)
    requires Sound(now, {}) && Clearing(s, now) && id in now.table
    ensures now.table[id] in now.heap && Clearing(s, Cleared(now, id))
  {
    hide Custody, Separate, PoolSound, Reported, AckSound;
  }

  lemma NothingOutstanding(s: Snap)
    requires Sound(s, {}) && s.table == map[]
    ensures forall p | p in s.heap :: s.heap[p].cancelled
  {
    forall p | p in s.heap ensures s.heap[p].cancelled { assert Kept(s, {}, p); }
  }

  lemma FlushIs(s: Snap)
    requires Sound(s, {}) && Idle(s)
    ensures Enabled(s, Flush) && Next(s, Flush) == Flushed(s) && Sound(Flushed(s), {})
  {
    hide Sound;
    FlushSound(s);
  }

  lemma MoreScheduled(requests: seq<Ptr>, i: nat)
    requires i < |requests|
    ensures Members(requests[..i + 1]) == Members(requests[..i]) + {requests[i]}
  {
    assert requests[..i + 1] == requests[..i] + [requests[i]];
  }

  /** A new request that is queued, and run at once where that is possible. */
  lemma QueuedNew(s: Snap, p: Ptr, onThread: bool)
    requires Sound(s, {}) && p in s.inHand && p in s.heap && !s.heap[p].cancelled && !s.heap[p].completed
    ensures var s' := Next(s, Enqueue(p, onThread));
            && p in s'.heap && s'.heap[p] == s.heap[p] && s'.online == s.online
            && (s.online && onThread ==> s'.running == s.running + [p])
  {
    hide Sound;
  }

  lemma SentNew(s: Snap, p: Ptr, outcome: Outcome)
    requires Sound(s, {}) && s.running != [] && s.running[|s.running| - 1] == p && p in s.heap && !s.heap[p].completed
    ensures Enabled(s, Sent(outcome))
    ensures var s' := Next(s, Sent(outcome));
            && s'.running == s.running && s'.online == s.online && p in s'.heap && s'.heap[p].id == s.heap[p].id
            && (s'.heap[p].completed <==> outcome != SendOngoing)
  {
    hide Sound;
  }

  lemma FinishedNew(s: Snap, p: Ptr)
    requires Sound(s, {}) && s.running != [] && s.running[|s.running| - 1] == p && p in s.heap
    ensures var s' := Next(s, Finish);
            && s'.online == s.online
            && (if s.heap[p].completed then p !in s'.heap && p in s'.released
                else p in s'.heap && s'.heap[p].id == s.heap[p].id)
  {
    hide Sound;
  }

  lemma SameFreed(s: Snap, p: Ptr)
    requires p in s.heap
    ensures Freed(s.(heap := s.heap[p := s.heap[p].(initiated := true)]), p) == Freed(s, p)
  {
    assert s.heap[p := s.heap[p].(initiated := true)] - {p} == s.heap - {p};
  }

  lemma OneFreeId(s: Snap)
    ensures forall i, j | IsFreeId(s, i) && IsFreeId(s, j) :: i == j
  {
  }

  class RequestTable {
    var heap: map<Ptr, Request>
    var table: map<nat, Ptr>
    var inHand: set<Ptr>
    var scheduled: set<Ptr>
    var pending: seq<Ptr>
    var running: seq<Ptr>
    var acking: Option<Ptr>
    var next: Ptr
    var online: bool
    ghost var released: seq<Ptr>
    ghost var notified: seq<Ptr>
    ghost var stranded: set<Ptr>

    ghost function View(): Snap
      reads this
    {
      Snap(heap, table, inHand, scheduled, pending, running, acking, released, notified, stranded, next, online)
    }

    ghost predicate Valid()
      reads this
    {
      Sound(View(), {})
    }

    constructor ()
      ensures Valid() && heap == map[] && !online
    {
      heap, table, inHand, scheduled, pending, running, acking := map[], map[], {}, {}, [], [], None;
      next, online, released, notified, stranded := 0, false, [], [], {};
    }

    /** Give a request back to the pool. */
    method Release(p: Ptr)
      requires p in heap
      modifies this`heap, this`released
      ensures heap == old(heap) - {p} && released == old(released) + [p]
    {
      heap := heap - {p};
      released := released + [p];
    }

    /** mqtt_create_request, while it holds the table's lock. Its assertion that an
        identifier was found is the second precondition. */
    method MakeRequest(callback: bool) returns (p: Ptr)
      requires Valid() && Enabled(View(), Reserve(callback))
      modifies this
      ensures Valid() && View() == Next(old(View()), Reserve(callback))
      ensures p == old(next) && p in heap && p in inHand && IsFreeId(old(View()), heap[p].id)
      ensures heap[p] == Request(heap[p].id, callback, false, false, false) && online == old(online)
    {
      hide Sound;
      SmallIds(View());
      StepSound(View(), Reserve(callback));
      var id := FreeId(table);
      assert IsFreeId(View(), id);
      OneFreeId(View());
      p := next;
      next := next + 1;
      heap := heap[p := Request(id, callback, false, false, false)];
      table := table[id := p];
      inHand := inHand + {p};
    }

    /** The rest of mqtt_create_request. */
    method Queue(p: Ptr, onThread: bool)
      requires Valid() && p in inHand
      modifies this
      ensures Valid() && View() == Next(old(View()), Enqueue(p, onThread))
    {
      hide Sound;
      ghost var s := View();
      StepSound(s, Enqueue(p, onThread));
      TakeInHand(s, p);
      inHand := inHand - {p};
      if !online {
        pending := pending + [p];
      } else if onThread {
        RunTask(p);
      } else {
        scheduled := scheduled + {p};
      }
    }

    /** s_request_timeout_task when it is told to run, up to the call that sends. */
    method RunTask(p: Ptr)
      requires p in heap && Sound(View(), {p})
      modifies this
      ensures View() == Begin(old(View()), p)
    {
      hide Sound;
      if heap[p].cancelled {
        Release(p);
        return;
      }
      if !heap[p].completed {
        running := running + [p];
        return;
      }
      InitiatedSound(View(), p);
      SameFreed(View(), p);
      heap := heap[p := heap[p].(initiated := true)];
      CleanUp(p);
    }

    /** A completed request leaves the table and goes back to the pool. The entry that is
        removed is there, and is the request itself. */
    method CleanUp(p: Ptr)
      requires p in heap && !heap[p].cancelled && Sound(View(), {p})
      modifies this
      ensures View() == Freed(old(View()), p)
    {
      hide Sound;
      FreedSound(View(), p);
      var id := heap[p].id;
      assert id in table;
      var elem := table[id];
      table := table - {id};
      assert elem == p;
      Release(elem);
    }

    /** The channel runs a task. */
    method OnTaskRun(p: Ptr)
      requires Valid() && p in scheduled && Idle(View())
      modifies this
      ensures Valid() && View() == Next(old(View()), TaskRuns(p))
    {
      hide Sound;
      StepSound(View(), TaskRuns(p));
      TakeScheduled(View(), p);
      scheduled := scheduled - {p};
      RunTask(p);
    }

    /** The channel cancels a task. */
    method OnTaskCancelled(p: Ptr)
      requires Valid() && p in scheduled && Idle(View())
      modifies this
      ensures Valid() && View() == Next(old(View()), TaskCancelled(p))
    {
      hide Sound;
      StepSound(View(), TaskCancelled(p));
      TakeScheduled(View(), p);
      scheduled := scheduled - {p};
      if heap[p].cancelled { stranded := stranded + {p}; }
      heap := heap[p := heap[p].(cancelled := true)];
    }

    /** What s_request_timeout_task does with the result of sending. */
    method OnSent(outcome: Outcome)
      requires Valid() && Enabled(View(), Sent(outcome))
      modifies this
      ensures Valid() && View() == Next(old(View()), Sent(outcome))
    {
      hide Sound;
      StepSound(View(), Sent(outcome));
      var p := running[|running| - 1];
      match outcome
      case SendOngoing =>
      case SendError | SendComplete =>
        if heap[p].callback { notified := notified + [p]; }
        heap := heap[p := heap[p].(completed := true)];
    }

    /** The end of s_request_timeout_task: give the request back, try again later, or wait for a connection. */
    method FinishTask()
      requires Valid() && running != []
      modifies this
      ensures Valid() && View() == Next(old(View()), Finish)
    {
      hide Sound;
      StepSound(View(), Finish);
      TakeRunning(View());
      var p := running[|running| - 1];
      running := running[..|running| - 1];
      InitiatedSound(View(), p);
      SameFreed(View(), p);
      heap := heap[p := heap[p].(initiated := true)];
      if heap[p].completed {
        CleanUp(p);
      } else if online {
        scheduled := scheduled + {p};
      } else {
        pending := pending + [p];
      }
    }

    /** The whole of mqtt_create_request, when no other step comes in between: where it reads the
        identifier that it returns, the request is live unless it was run at once and is done. */
    method CreateRequest(callback: bool, onThread: bool, outcome: Outcome) returns (p: Ptr, live: bool)
      requires Valid() && Enabled(View(), Reserve(callback))
      modifies this
      ensures Valid() && p == old(next) && (live <==> p in heap) && (!live ==> p in released)
      ensures live <==> !(online && onThread && outcome != SendOngoing)
      ensures live ==> IsFreeId(old(View()), heap[p].id)
    {
      hide Sound, IsFreeId, Next;
      p := MakeRequest(callback);
      QueuedNew(View(), p, onThread);
      Queue(p, onThread);
      if online && onThread {
        SentNew(View(), p, outcome);
        OnSent(outcome);
        FinishedNew(View(), p);
        FinishTask();
      }
      live := p in heap;
    }

    /** mqtt_request_complete, up to and including its callback. */
    method BeginAck(id: nat)
      requires Valid() && Enabled(View(), AckBegin(id))
      modifies this
      ensures Valid() && View() == Next(old(View()), AckBegin(id))
    {
      hide Sound;
      StepSound(View(), AckBegin(id));
      var p := table[id];
      acking := Some(p);
      if heap[p].callback { notified := notified + [p]; }
    }

    /** The rest of mqtt_request_complete. The request is still there. */
    method EndAck()
      requires Valid() && Enabled(View(), AckEnd)
      modifies this
      ensures Valid() && View() == Next(old(View()), AckEnd)
    {
      hide Sound;
      StepSound(View(), AckEnd);
      AckEndSound(View(), acking.value);
      var p := acking.value;
      heap := heap[p := heap[p].(completed := true)];
      acking := None;
    }

    /** One entry of the table goes: s_outstanding_request_destroy. */
    method DestroyEntry(id: nat)
      requires Valid() && Enabled(View(), Clear(id))
      modifies this
      ensures Valid() && View() == Next(old(View()), Clear(id)) == Cleared(old(View()), id)
    {
      hide Sound;
      StepSound(View(), Clear(id));
      ClearedSound(View(), id);
      var p := table[id];
      table := table - {id};
      if heap[p].cancelled {
        Release(p);
      } else {
        heap := heap[p := heap[p].(cancelled := true)];
      }
    }

    /** Clearing the table, which a finished disconnect does. Afterwards every live request
        is marked as cancelled, and those whose tasks were cancelled before are gone. */
    method ClearTable()
      requires Valid() && Idle(View())
      modifies this
      ensures Valid() && Idle(View()) && table == map[]
      ensures forall p | p in heap :: heap[p].cancelled
      ensures forall p | p in old(heap) :: p in heap <==> !(old(heap)[p].cancelled && InTable(old(View()), p))
      ensures scheduled == old(scheduled) && pending == old(pending) && inHand == old(inHand)
              && notified == old(notified)
    {
      hide Sound, Next, Clearing;
      ghost var s := View();
      ClearingStart(s);
      while table != map[]
        invariant Valid() && Idle(View()) && Clearing(s, View())
        invariant scheduled == old(scheduled) && pending == old(pending) && inHand == old(inHand)
                  && notified == old(notified)
        decreases |table|
      {
        var id :| id in table;
        ClearingStep(s, View(), id);
        ghost var before := table;
        DestroyEntry(id);
        assert table == before - {id} && before.Keys == table.Keys + {id};
      }
      NothingOutstanding(View());
      ClearingEnd(s, View());
    }

    /** The part of s_packet_handler_connack that hands the waiting requests to the channel. */
    method FlushPending()
      requires Valid() && Idle(View())
      modifies this
      ensures Valid() && View() == Next(old(View()), Flush)
    {
      hide Sound, Next, Enabled;
      FlushIs(View());
      var requests := pending;
      pending := [];
      var i := 0;
      while i < |requests|
        invariant 0 <= i <= |requests|
        invariant View() == old(View()).(pending := [], scheduled := old(scheduled) + Members(requests[..i]))
      {
        MoreScheduled(requests, i);
        scheduled := scheduled + {requests[i]};
        i := i + 1;
      }
      assert requests[..|requests|] == requests;
    }
  }
}
