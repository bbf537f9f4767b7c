/**
 The life of a connection from one call of connect on: opening, losing and reopening
 its channel, the calls to the user, and the waits between attempts
 (source/client.c and s_packet_handler_connack in source/client_channel_handler.c).
 */
module Connections {

  datatype Phase = Connecting | Connected | Reconnecting | Disconnecting | Disconnected

  datatype Call = CompleteOk | CompleteError | Interrupted | Resumed | Disconnect

  /** What is under way outside: an attempt to open a channel, an open channel, a
      scheduled attempt, or nothing. */
  datatype Activity = Attempt | Open | Scheduled | Nothing

  const U64 := 0x1_0000_0000_0000_0000

  /** count: accepted or refused CONNACKs so far
      slot: whether the handler is in the channel
      unsent: whether the CONNECT of this channel could not be sent
      closing: how many tasks that shut this channel down are queued
      late: how many such tasks of channels that are gone are queued
      crashed: whether such a task read the slot when there was none
      attached: whether the connection has its reconnect task
      freed: how often that task was freed
      waits: the waits computed since a channel was last opened
      calls: the calls to the user, in order */
  datatype Conn = Conn(
    phase: Phase, count: nat, slot: bool, unsent: bool, closing: nat, late: nat, crashed: bool,
    activity: Activity, attached: bool, freed: nat, min: nat, max: nat, current: nat, waits: seq<nat>, calls: seq<Call>)

  /** After aws_mqtt_client_connection_connect has begun the first attempt. */
  function Start(min: nat, max: nat): Conn {
    Conn(Connecting, 0, false, false, 0, 0, false, Attempt, true, 0, min, max, 0, [], [])
  }

  /** InitOk: whether the slot was made and the CONNECT was encoded and sent
      OtherPacket: one that is not a CONNACK
      LateDisconnectTask: a task that shuts a channel down, and runs when that channel is gone
      Shutdown: whether the user disconnects inside the call that reports an interruption */
  datatype Event =
    | InitError
    | InitOk(slot: bool, sent: bool)
    | Connack(accepted: bool)
    | OtherPacket
    | UserDisconnect
    | DisconnectTask
    | LateDisconnectTask
    | Shutdown(disconnectInside: bool, attemptBegins: bool)
    | TaskRuns(attemptBegins: bool)
    | TaskCancelled

  /** When an event can happen. Any CONNECT may fail to be sent, and a server may send any
      number of CONNACKs. */
  predicate Enabled(c: Conn, e: Event) {
    && !c.crashed
    && match e
       case InitError => c.activity == Attempt
       case InitOk(_, _) => c.activity == Attempt
       case Connack(_) => c.activity == Open && c.slot
       case OtherPacket => c.activity == Open && c.slot
       case UserDisconnect => true
       case DisconnectTask => c.activity == Open && c.closing > 0
       case LateDisconnectTask => c.late > 0
       case Shutdown(_, _) => c.activity == Open
       case TaskRuns(_) => c.activity == Scheduled
       case TaskCancelled => c.activity == Scheduled
  }

  function Less(n: nat): nat { if n > 0 then n - 1 else 0 }

  /** s_attempt_reconect when it tries again. */
  function Reconnect(c: Conn, attemptBegins: bool): Conn {
    c.(waits := c.waits + [c.current], current := if c.current > c.max / 2 then c.max else c.current * 2,
       activity := if attemptBegins then Attempt else Scheduled)
  }

  /** s_attempt_reconect: it frees the task if it was cancelled or the connection let go of it. */
  function Attempted(c: Conn, ready: bool, attemptBegins: bool): Conn {
    if ready && c.attached then Reconnect(c, attemptBegins)
    else c.(activity := Nothing, attached := false, freed := c.freed + 1)
  }

  /** s_mqtt_disconnect_task lets go of the reconnect task, and frees it unless it is scheduled. */
  function Detached(c: Conn): Conn {
    if c.phase == Disconnecting && c.attached
    then c.(attached := false, freed := if c.activity == Scheduled then c.freed else c.freed + 1)
    else c
  }

  /** An open connection is lost. */
  function Interrupt(c: Conn, disconnectInside: bool, attemptBegins: bool): Conn {
    if disconnectInside then c.(phase := Disconnected, calls := c.calls + [Interrupted] + [Disconnect])
    else Reconnect(c.(phase := Reconnecting, calls := c.calls + [Interrupted]), attemptBegins)
  }

  /** The slot is removed; a first channel that had one counts as connected. */
  function Quiet(c: Conn): Conn {
    c.(phase := if c.slot && c.phase == Connecting then Connected else c.phase,
       slot := false, unsent := false, closing := 0, late := c.late + c.closing, activity := Nothing)
  }

  /** s_mqtt_client_shutdown. */
  function Closed(c: Conn, disconnectInside: bool, attemptBegins: bool): Conn {
    var q := Quiet(c);
    match q.phase
    case Reconnecting => q.(activity := Scheduled)
    case Disconnecting => q.(phase := Disconnected, calls := c.calls + [Disconnect])
    case Connecting => q.(phase := Disconnected, calls := c.calls + [CompleteError])
    case Connected => Interrupt(q, disconnectInside, attemptBegins)
    case Disconnected => Reconnect(q, attemptBegins)
  }

  function Next(c: Conn, e: Event): Conn {
    match e
    case InitError => Closed(c, false, false)
    case InitOk(slot, sent) =>
      var unsent := slot && !sent;
      c.(current := c.min, waits := [], activity := Open, slot := slot, unsent := unsent,
         calls := if unsent then c.calls + [CompleteError] else c.calls)
    case Connack(accepted) =>
      if c.phase == Disconnecting || c.phase == Disconnected then c
      else
        c.(phase := Connected, count := c.count + 1, closing := if accepted then c.closing else c.closing + 1,
           calls := c.calls + [if c.phase == Reconnecting && c.count > 0 then Resumed else CompleteOk])
    case OtherPacket => if c.phase == Connecting then c.(closing := c.closing + 1) else c
    case UserDisconnect =>
      if c.phase == Connected || c.phase == Reconnecting
      then c.(phase := Disconnecting, closing := if c.slot then c.closing + 1 else c.closing)
      else c
    case DisconnectTask => Detached(c.(closing := Less(c.closing)))
    case LateDisconnectTask => Detached(c.(late := Less(c.late), crashed := !c.slot))
    case Shutdown(disconnectInside, attemptBegins) => Closed(c, disconnectInside, attemptBegins)
    case TaskRuns(attemptBegins) => Attempted(c, true, attemptBegins)
    case TaskCancelled => Attempted(c, false, false)
  }

  predicate Legal(c: Conn, es: seq<Event>)
    decreases |es|
  {
    es == [] || (Enabled(c, es[0]) && Legal(Next(c, es[0]), es[1..]))
  }

  function Exec(c: Conn, es: seq<Event>): Conn
    decreases |es|
  {
    if es == [] then c else Exec(Next(c, es[0]), es[1..])
  }

  // ----- what every event keeps -----

  /** What the phase says about what is under way, and about the reconnect task. */
  predicate Core(c: Conn) {
    && (c.slot ==> c.activity == Open)
    && (c.unsent || c.closing > 0 ==> c.slot)
    && c.freed == (if c.attached || (c.crashed && c.activity == Scheduled) then 0 else 1)
    && (c.activity == Scheduled ==> c.attached || c.crashed)
    && match c.phase
       case Connecting => c.attached && (c.activity == Attempt || c.activity == Open)
       case Connected => c.attached && c.activity == Open && c.slot
       case Reconnecting => c.attached <==> c.activity != Nothing
       case Disconnecting => true
       case Disconnected => c.activity == Nothing
  }

  lemma StepCore(c: Conn, e: Event)
    requires Core(c) && Enabled(c, e)
    ensures Core(Next(c, e))
  {
  }

  /** On every run: nothing is under way once the connection is disconnected, and the
      reconnect task is freed at most once, is live whenever it is scheduled, and is let go of while it is
      scheduled only by a task that then reads a slot that is not there. */
  lemma {:induction false} RunsKeepCore(c: Conn, es: seq<Event>)
    requires Core(c) && Legal(c, es)
    ensures var c' := Exec(c, es);
            && Core(c') && c'.freed <= 1
            && (c'.phase == Disconnected ==> c'.activity == Nothing)
            && (c'.activity == Scheduled ==> c'.freed == 0 && (c'.attached || c'.crashed))
    decreases |es|
  {
    hide Next, Enabled;
    if es != [] {
      StepCore(c, es[0]);
      RunsKeepCore(Next(c, es[0]), es[1..]);
    }
  }

  /** Once disconnected, no event brings another call, and none changes anything but for the
      tasks of channels that are gone, of which the first to run finds no slot. */
  lemma {:induction false} NothingFollows(c: Conn, es: seq<Event>)
    requires Core(c) && Legal(c, es) && c.phase == Disconnected
    ensures var c' := Exec(c, es);
            && c' == c.(late := c'.late, crashed := c'.crashed)
            && (c'.crashed <==> c.crashed || LateDisconnectTask in es)
    decreases |es|
  {
    if es != [] {
      assert es[0] == UserDisconnect || es[0] == LateDisconnectTask;
      assert es == [es[0]] + es[1..];
      NothingFollows(Next(c, es[0]), es[1..]);
    }
  }

  // ----- the task that shuts a channel down -----

  /** The channel ends before a task that was to shut it down has run. */
  predicate EndsEarly(c: Conn, e: Event) {
    e.Shutdown? && c.closing > 0
  }

  predicate Orderly(c: Conn, es: seq<Event>)
    decreases |es|
  {
    es == [] || (!EndsEarly(c, es[0]) && Orderly(Next(c, es[0]), es[1..]))
  }

  lemma OrderlyStep(c: Conn, e: Event)
    requires Core(c) && c.late == 0 && Enabled(c, e) && !EndsEarly(c, e)
    ensures Next(c, e).late == 0 && !Next(c, e).crashed
  {
  }

  /** Such a task finds a slot on every run in which no channel ends early. */
  lemma {:induction false} OrderlyRunsKeepSlot(c: Conn, es: seq<Event>)
    requires Core(c) && c.late == 0 && !c.crashed && Legal(c, es) && Orderly(c, es)
    ensures !Exec(c, es).crashed && Exec(c, es).late == 0
    decreases |es|
  {
    hide Next, Enabled, EndsEarly, Core;
    if es != [] {
      StepCore(c, es[0]);
      OrderlyStep(c, es[0]);
      OrderlyRunsKeepSlot(Next(c, es[0]), es[1..]);
    }
  }

  /** And whenever a channel does end early, its task can find none. */
  lemma EarlyEndCrashes(c: Conn, e: Event)
    requires Core(c) && Enabled(c, e) && EndsEarly(c, e)
    ensures Legal(c, [e, LateDisconnectTask]) && Exec(c, [e, LateDisconnectTask]).crashed
  {
    hide Legal, Exec, Unbroken;
    var c1 := Next(c, e);
    assert [e] + [LateDisconnectTask] == [e, LateDisconnectTask] && [LateDisconnectTask] + [] == [LateDisconnectTask];
    FirstEvent(c, e, [LateDisconnectTask]);
    FirstEvent(c1, LateDisconnectTask, []);
    NoEvent(Next(c1, LateDisconnectTask));
    EarlyEnd(c, e, c1);
  }

  lemma EarlyEnd(c: Conn, e: Event, c1: Conn)
    requires Core(c) && Enabled(c, e) && EndsEarly(c, e) && c1 == Next(c, e)
    ensures !c1.crashed && c1.late > 0 && !c1.slot
  {
  }

  // ----- what becomes of a disconnect -----

  /** An accepted disconnect queues a task exactly when there is a slot. Then the task ends the channel,
      the reconnect task is freed and the user is told. */
  lemma DisconnectWithSlot(c: Conn)
    requires Core(c) && !c.crashed && (c.phase == Connected || c.phase == Reconnecting)
    ensures Next(c, UserDisconnect).closing == c.closing + 1 <==> c.slot
    ensures var es := [UserDisconnect, DisconnectTask, Shutdown(false, false)];
            c.slot ==>
              && Legal(c, es) && Exec(c, es).phase == Disconnected
              && Exec(c, es).calls == c.calls + [Disconnect] && !Exec(c, es).attached
  {
    hide Legal, Exec, Unbroken;
    var u, d, e := UserDisconnect, DisconnectTask, Shutdown(false, false);
    var c1 := Next(c, u);
    var c2 := Next(c1, d);
    FirstEvent(c, u, [d, e]);
    FirstEvent(c1, d, [e]);
    FirstEvent(c2, e, []);
    NoEvent(Next(c2, e));
    assert [u] + [d, e] == [u, d, e] && [d] + [e] == [d, e] && [e] + [] == [e];
  }

  lemma WaitingStep(c: Conn, e: Event)
    requires Core(c) && c.phase == Disconnecting && c.closing == 0 && c.late == 0 && Enabled(c, e)
    requires !e.Shutdown? && !e.InitError?
    ensures var c' := Next(c, e);
            && c'.phase == Disconnecting && c'.closing == 0 && c'.late == 0
            && (c'.calls == c.calls || c'.calls == c.calls + [CompleteError])
  {
  }

  /** Without a slot nothing ever asks for the end: on any run, until a channel or an attempt ends
      by itself, the connection stays disconnecting, and no call tells of the disconnect. */
  lemma {:induction false} DisconnectWithoutSlot(c: Conn, es: seq<Event>)
    requires Core(c) && c.phase == Disconnecting && c.closing == 0 && c.late == 0 && Legal(c, es)
    requires forall e | e in es :: !e.Shutdown? && !e.InitError?
    ensures var c' := Exec(c, es);
            && c'.phase == Disconnecting && c'.closing == 0 && c'.late == 0 && c.calls <= c'.calls
            && forall i | |c.calls| <= i < |c'.calls| :: c'.calls[i] == CompleteError
    decreases |es|
  {
    hide Next, Enabled, Core;
    if es != [] {
      assert es[0] in es && forall e | e in es[1..] :: e in es;
      StepCore(c, es[0]);
      WaitingStep(c, es[0]);
      DisconnectWithoutSlot(Next(c, es[0]), es[1..]);
    }
  }

  /** It happens: a disconnect while the next attempt is scheduled. The attempt is made all the same,
      and its channel stays open with nobody to close it. */
  lemma UnansweredDisconnect(c: Conn)
    requires c == Start(c.min, c.max)
    ensures var es := [InitOk(true, true), Connack(true), Shutdown(false, false), UserDisconnect, TaskRuns(true),
                       InitOk(true, true), Connack(true)];
            && Legal(c, es)
            && var c' := Exec(c, es);
               c'.phase == Disconnecting && c'.activity == Open && c'.slot && c'.closing == 0
               && c'.calls == [CompleteOk, Interrupted]
  {
    hide Legal, Exec, Unbroken, Next;
    var open, answer, end, task := InitOk(true, true), Connack(true), Shutdown(false, false), TaskRuns(true);
    var c2 := AnsweredOnce(c, [end, UserDisconnect, task, open, answer]);
    var c4 := LostAndLetGo(c2, [task, open, answer]);
    AttemptOpens(c4);
    assert [end, UserDisconnect] + [task, open, answer] == [end, UserDisconnect, task, open, answer];
    assert [open, answer] + [end, UserDisconnect, task, open, answer]
        == [open, answer, end, UserDisconnect, task, open, answer];
  }

  lemma LostAndLetGo(c2: Conn, es: seq<Event>) returns (c4: Conn)
    requires c2.phase == Connected && c2.activity == Open && c2.slot && c2.calls == [CompleteOk] && c2.attached
    requires c2.closing == 0 && !c2.crashed
    ensures c4.phase == Disconnecting && c4.activity == Scheduled && !c4.crashed && c4.attached && c4.closing == 0
    ensures c4.calls == [CompleteOk, Interrupted]
    ensures var all := [Shutdown(false, false), UserDisconnect] + es;
            (Legal(c2, all) <==> Legal(c4, es)) && Exec(c2, all) == Exec(c4, es)
  {
    hide Legal, Exec, Unbroken, Next;
    var end := Shutdown(false, false);
    var c3 := Next(c2, end);
    c4 := Next(c3, UserDisconnect);
    LostThenDisconnected(c2, c3, c4);
    FirstEvent(c2, end, [UserDisconnect] + es);
    FirstEvent(c3, UserDisconnect, es);
    assert [end] + ([UserDisconnect] + es) == [end, UserDisconnect] + es;
  }

  lemma AttemptOpens(c4: Conn)
    requires c4.phase == Disconnecting && c4.activity == Scheduled && !c4.crashed && c4.attached && c4.closing == 0
    ensures var es := [TaskRuns(true), InitOk(true, true), Connack(true)];
            && Legal(c4, es)
            && var c' := Exec(c4, es);
               c'.phase == Disconnecting && c'.activity == Open && c'.slot && c'.closing == 0 && c'.calls == c4.calls
  {
    hide Legal, Exec, Unbroken, Next;
    var open, answer, task := InitOk(true, true), Connack(true), TaskRuns(true);
    var c5 := Next(c4, task);
    var c6 := Next(c5, open);
    AttemptedAnyway(c4, c5, c6);
    FirstEvent(c4, task, [open, answer]);
    FirstEvent(c5, open, [answer]);
    FirstEvent(c6, answer, []);
    NoEvent(Next(c6, answer));
    assert [task] + [open, answer] == [task, open, answer];
    assert [open] + [answer] == [open, answer] && [answer] + [] == [answer];
  }

  lemma LostThenDisconnected(c2: Conn, c3: Conn, c4: Conn)
    requires c2.phase == Connected && c2.activity == Open && c2.slot && c2.calls == [CompleteOk] && c2.attached
    requires c2.closing == 0 && !c2.crashed
    requires c3 == Next(c2, Shutdown(false, false)) && c4 == Next(c3, UserDisconnect)
    ensures c3.phase == Reconnecting && !c3.crashed
    ensures c4.phase == Disconnecting && c4.activity == Scheduled && !c4.crashed && c4.attached && c4.closing == 0
    ensures c4.calls == [CompleteOk, Interrupted]
  {
  }

  lemma AttemptedAnyway(c4: Conn, c5: Conn, c6: Conn)
    requires c4.phase == Disconnecting && c4.activity == Scheduled && !c4.crashed && c4.attached && c4.closing == 0
    requires c5 == Next(c4, TaskRuns(true)) && c6 == Next(c5, InitOk(true, true))
    ensures c5.activity == Attempt && !c5.crashed
    ensures c6.activity == Open && c6.slot && !c6.crashed && c6.phase == Disconnecting && c6.closing == 0
    ensures Next(c6, Connack(true)) == c6 && c6.calls == c4.calls
  {
  }

  // ----- what the events of a run say about its end -----

  function Front(es: seq<Event>): seq<Event>
    requires es != []
  {
    es[..|es| - 1]
  }

  function Final(es: seq<Event>): Event
    requires es != []
  {
    es[|es| - 1]
  }

  lemma {:induction false} LastEvent(c: Conn, es: seq<Event>)
    requires es != []
    ensures Legal(c, es) <==> Legal(c, Front(es)) && Enabled(Exec(c, Front(es)), Final(es))
    ensures Exec(c, es) == Next(Exec(c, Front(es)), Final(es))
    decreases |es|
  {
    hide Next, Enabled;
    if |es| == 1 {
      assert es[1..] == [] && Front(es) == [];
    } else {
      LastEvent(Next(c, es[0]), es[1..]);
      assert Front(es)[1..] == Front(es[1..]) && Front(es)[0] == es[0] && Final(es[1..]) == Final(es);
    }
  }

  lemma {:induction false} BeforeLast(min: nat, max: nat, es: seq<Event>) returns (c: Conn)
    requires es != [] && Legal(Start(min, max), es)
    ensures c == Exec(Start(min, max), Front(es)) && Legal(Start(min, max), Front(es))
    ensures Core(c) && Enabled(c, Final(es)) && Exec(Start(min, max), es) == Next(c, Final(es))
  {
    hide Next, Enabled, Core;
    LastEvent(Start(min, max), es);
    StartCore(min, max);
    RunsKeepCore(Start(min, max), Front(es));
    c := Exec(Start(min, max), Front(es));
  }

  lemma StartCore(min: nat, max: nat)
    ensures Core(Start(min, max))
  {
  }

  /** A channel opened and did not end since; with a slot; with a CONNECT that was not sent. */
  predicate OpenAfter(es: seq<Event>)
    decreases |es|
  {
    && es != []
    && match Final(es)
       case InitOk(_, _) => true
       case InitError => false
       case Shutdown(_, _) => false
       case _ => OpenAfter(Front(es))
  }

  predicate SlotAfter(es: seq<Event>)
    decreases |es|
  {
    && es != []
    && match Final(es)
       case InitOk(slot, _) => slot
       case InitError => false
       case Shutdown(_, _) => false
       case _ => SlotAfter(Front(es))
  }

  predicate UnsentAfter(es: seq<Event>)
    decreases |es|
  {
    && es != []
    && match Final(es)
       case InitOk(slot, sent) => slot && !sent
       case InitError => false
       case Shutdown(_, _) => false
       case _ => UnsentAfter(Front(es))
  }

  /** On every run, what is open is what the events opened and did not end. */
  lemma {:induction false} ChannelOverRuns(min: nat, max: nat, es: seq<Event>)
    requires Legal(Start(min, max), es)
    ensures var c := Exec(Start(min, max), es);
            && (c.activity == Open <==> OpenAfter(es)) && (c.slot <==> SlotAfter(es)) && (c.unsent <==> UnsentAfter(es))
    decreases |es|
  {
    hide Next, Enabled, Core;
    if es != [] {
      var c := BeforeLast(min, max, es);
      ChannelOverRuns(min, max, Front(es));
      ChannelStep(c, Final(es));
    }
  }

  lemma ChannelStep(c: Conn, e: Event)
    requires Core(c) && Enabled(c, e)
    ensures var c' := Next(c, e);
            match e
            case InitOk(slot, sent) => c'.activity == Open && c'.slot == slot && c'.unsent == (slot && !sent)
            case InitError => c'.activity != Open && !c'.slot && !c'.unsent
            case Shutdown(_, _) => c'.activity != Open && !c'.slot && !c'.unsent
            case _ => (c'.activity == Open <==> c.activity == Open) && c'.slot == c.slot && c'.unsent == c.unsent
  {
  }

  /** The end of a channel that tells the user of an interruption and tries again at once. */
  predicate Loses(c: Conn, e: Event) {
    e.Shutdown? && !e.disconnectInside && (c.phase == Connected || (c.phase == Connecting && c.slot))
  }

  /** An attempt is under way: the first, or one that was begun since. */
  predicate AttemptAfter(c: Conn, es: seq<Event>)
    decreases |es|
  {
    if es == [] then true
    else
      match Final(es)
      case InitOk(_, _) => false
      case InitError => false
      case Shutdown(_, begins) => begins && Loses(Exec(c, Front(es)), Final(es))
      case TaskRuns(begins) => begins
      case TaskCancelled => false
      case _ => AttemptAfter(c, Front(es))
  }

  /** An attempt is scheduled: it could not begin, or the one before it failed while reconnecting. */
  predicate ScheduledAfter(c: Conn, es: seq<Event>)
    decreases |es|
  {
    && es != []
    && match Final(es)
       case InitOk(_, _) => false
       case InitError => Exec(c, Front(es)).phase == Reconnecting
       case Shutdown(_, begins) =>
         if Loses(Exec(c, Front(es)), Final(es)) then !begins else Exec(c, Front(es)).phase == Reconnecting
       case TaskRuns(begins) => !begins
       case TaskCancelled => false
       case _ => ScheduledAfter(c, Front(es))
  }

  /** On every run: what is tried, or will be, is what the events say. */
  lemma {:induction false} AttemptsOverRuns(min: nat, max: nat, es: seq<Event>)
    requires Legal(Start(min, max), es)
    ensures var c := Exec(Start(min, max), es);
            && (c.activity == Attempt <==> AttemptAfter(Start(min, max), es))
            && (c.activity == Scheduled <==> ScheduledAfter(Start(min, max), es))
    decreases |es|
  {
    hide Next, Enabled, Core, Loses;
    if es != [] {
      var c := BeforeLast(min, max, es);
      AttemptsOverRuns(min, max, Front(es));
      AttemptStep(c, Final(es));
    }
  }

  lemma AttemptStep(c: Conn, e: Event)
    requires Core(c) && Enabled(c, e)
    ensures var c' := Next(c, e);
            match e
            case InitOk(_, _) => c'.activity == Open
            case InitError => c'.activity == if c.phase == Reconnecting then Scheduled else Nothing
            case Shutdown(_, begins) =>
              c'.activity == if Loses(c, e) then (if begins then Attempt else Scheduled)
                             else if c.phase == Reconnecting then Scheduled
                             else Nothing
            case TaskRuns(begins) => c'.activity == if begins then Attempt else Scheduled
            case TaskCancelled => c'.activity == Nothing
            case _ => c'.activity == c.activity
  {
  }

  /** The events that ask for the end of a channel: a CONNACK that refuses, another packet before
      it, and a disconnect that is accepted. */
  predicate Asks(c: Conn, e: Event) {
    || (e == Connack(false) && (c.phase == Connecting || c.phase == Connected || c.phase == Reconnecting))
    || (e == OtherPacket && c.phase == Connecting)
    || (e == UserDisconnect && (c.phase == Connected || c.phase == Reconnecting) && c.slot)
  }

  /** How often that was asked, in all and since a channel was last opened. */
  function Asked(c: Conn, es: seq<Event>): nat
    decreases |es|
  {
    if es == [] then 0 else Asked(c, Front(es)) + (if Asks(Exec(c, Front(es)), Final(es)) then 1 else 0)
  }

  function AskedSince(c: Conn, es: seq<Event>): nat
    decreases |es|
  {
    if es == [] || Final(es).InitOk? then 0
    else AskedSince(c, Front(es)) + (if Asks(Exec(c, Front(es)), Final(es)) then 1 else 0)
  }

  /** How many tasks ran that were to end a channel, and how many on the one that was last opened. */
  function Ran(es: seq<Event>): nat
    decreases |es|
  {
    if es == [] then 0
    else Ran(Front(es)) + (if Final(es) == DisconnectTask || Final(es) == LateDisconnectTask then 1 else 0)
  }

  function RanSince(es: seq<Event>): nat
    decreases |es|
  {
    if es == [] || Final(es).InitOk? then 0
    else RanSince(Front(es)) + (if Final(es) == DisconnectTask then 1 else 0)
  }

  /** On every run, whenever the end of a channel is asked for a task is queued, and none is lost: on an
      open channel there are as many as were asked for and did not run, and so in all. */
  lemma {:induction false} ClosingOverRuns(min: nat, max: nat, es: seq<Event>)
    requires Legal(Start(min, max), es)
    ensures var s, c := Start(min, max), Exec(Start(min, max), es);
            && (if c.activity == Open then c.closing + RanSince(es) == AskedSince(s, es) else c.closing == 0)
            && c.closing + c.late + Ran(es) == Asked(s, es)
    decreases |es|
  {
    hide Next, Enabled, Core, Asks;
    if es != [] {
      var c := BeforeLast(min, max, es);
      ClosingOverRuns(min, max, Front(es));
      ClosingStep(c, Final(es));
    }
  }

  lemma ClosingStep(c: Conn, e: Event)
    requires Core(c) && Enabled(c, e)
    ensures var c' := Next(c, e);
            && (c'.activity == Open && !e.InitOk? ==> c.activity == Open)
            && (c'.activity != Open ==> c'.closing == 0)
            && (e.InitOk? ==> c'.closing == 0)
            && (c'.activity == Open && !e.InitOk? ==>
                  c'.closing == c.closing + (if Asks(c, e) then 1 else 0) - (if e == DisconnectTask then 1 else 0))
            && c'.closing + c'.late
               == c.closing + c.late + (if Asks(c, e) then 1 else 0)
                  - (if e == DisconnectTask || e == LateDisconnectTask then 1 else 0)
  {
  }

  /** The connection let go of its reconnect task: the task was cancelled, or one that shuts a channel down ran
      while the connection was disconnecting. */
  predicate LetGoAfter(c: Conn, es: seq<Event>)
    decreases |es|
  {
    && es != []
    && (|| LetGoAfter(c, Front(es))
        || Final(es) == TaskCancelled
        || ((Final(es) == DisconnectTask || Final(es) == LateDisconnectTask)
            && Exec(c, Front(es)).phase == Disconnecting))
  }

  /** A task that shuts a channel down ran when no channel had a slot. */
  predicate CrashedAfter(es: seq<Event>)
    decreases |es|
  {
    es != [] && (CrashedAfter(Front(es)) || (Final(es) == LateDisconnectTask && !SlotAfter(Front(es))))
  }

  /** On every run, the reconnect task is the connection's until it lets go of it, and then was freed, but for one
      that was scheduled when a task crashed. */
  lemma {:induction false} TaskOverRuns(min: nat, max: nat, es: seq<Event>)
    requires Legal(Start(min, max), es)
    ensures var s, c := Start(min, max), Exec(Start(min, max), es);
            && (c.attached <==> !LetGoAfter(s, es)) && (c.crashed <==> CrashedAfter(es))
            && c.freed == if LetGoAfter(s, es) && !(CrashedAfter(es) && ScheduledAfter(s, es)) then 1 else 0
    decreases |es|
  {
    hide Next, Enabled, Core;
    var s := Start(min, max);
    AttemptsOverRuns(min, max, es);
    if es == [] {
    } else {
      var c := BeforeLast(min, max, es);
      TaskOverRuns(min, max, Front(es));
      ChannelOverRuns(min, max, Front(es));
      TaskStep(c, Final(es));
      FreedIs(Next(c, Final(es)));
    }
  }

  lemma TaskStep(c: Conn, e: Event)
    requires Core(c) && Enabled(c, e)
    ensures var c' := Next(c, e);
            && (c'.attached <==>
                  c.attached && e != TaskCancelled
                  && !((e == DisconnectTask || e == LateDisconnectTask) && c.phase == Disconnecting))
            && (c'.crashed <==> e == LateDisconnectTask && !c.slot) && !c.crashed && Core(c')
  {
    StepCore(c, e);
  }

  lemma FreedIs(c: Conn)
    requires Core(c)
    ensures c.freed == if c.attached || (c.crashed && c.activity == Scheduled) then 0 else 1
  {
  }

  /** Which events can come after a run. */
  predicate PossibleAfter(c: Conn, es: seq<Event>, e: Event) {
    && !CrashedAfter(es)
    && match e
       case InitError => AttemptAfter(c, es)
       case InitOk(_, _) => AttemptAfter(c, es)
       case Connack(_) => SlotAfter(es)
       case OtherPacket => SlotAfter(es)
       case UserDisconnect => true
       case DisconnectTask => OpenAfter(es) && AskedSince(c, es) > RanSince(es)
       case LateDisconnectTask =>
         Asked(c, es) - Ran(es) > if OpenAfter(es) then AskedSince(c, es) - RanSince(es) else 0
       case Shutdown(_, _) => OpenAfter(es)
       case TaskRuns(_) => ScheduledAfter(c, es)
       case TaskCancelled => ScheduledAfter(c, es)
  }

  /** A run can go on by exactly the events that its own events make possible. */
  lemma RunsGoOn(min: nat, max: nat, es: seq<Event>, e: Event)
    requires Legal(Start(min, max), es)
    ensures Legal(Start(min, max), es + [e]) <==> PossibleAfter(Start(min, max), es, e)
  {
    hide Legal, Exec, Core, Next, AttemptAfter, ScheduledAfter, OpenAfter, SlotAfter, CrashedAfter, LetGoAfter,
         Asked, AskedSince, Ran, RanSince;
    assert Front(es + [e]) == es && Final(es + [e]) == e;
    LastEvent(Start(min, max), es + [e]);
    ChannelOverRuns(min, max, es);
    AttemptsOverRuns(min, max, es);
    ClosingOverRuns(min, max, es);
    TaskOverRuns(min, max, es);
    StartCore(min, max);
    RunsKeepCore(Start(min, max), es);
    SlotIsOpen(Exec(Start(min, max), es));
  }

  lemma SlotIsOpen(c: Conn)
    requires Core(c)
    ensures c.slot ==> c.activity == Open
  {
  }

  /** So a refused connection can always be ended by the client. */
  lemma RefusedConnackEnds(c: Conn, inside: bool, begins: bool)
    requires Core(c) && Enabled(c, Connack(false)) && c.phase != Disconnecting && c.phase != Disconnected
    ensures var es := [Connack(false), DisconnectTask, Shutdown(inside, begins)];
            Legal(c, es) && Exec(c, es).activity != Open && !Exec(c, es).slot
  {
    hide Legal, Exec, Unbroken, Next;
    var r, d, e := Connack(false), DisconnectTask, Shutdown(inside, begins);
    var c1 := Next(c, r);
    var c2 := Next(c1, d);
    FirstEvent(c, r, [d, e]);
    FirstEvent(c1, d, [e]);
    FirstEvent(c2, e, []);
    NoEvent(Next(c2, e));
    assert [r] + [d, e] == [r, d, e] && [d] + [e] == [d, e] && [e] + [] == [e];
    ChannelStep(c, r);
    ClosingStep(c, r);
    StepCore(c, r);
    KeepsRunning(c, r);
    ChannelStep(c1, d);
    StepCore(c1, d);
    KeepsRunning(c1, d);
    ChannelStep(c2, e);
  }

  lemma KeepsRunning(c: Conn, e: Event)
    requires Enabled(c, e) && e != LateDisconnectTask
    ensures !Next(c, e).crashed
  {
  }

  // ----- the grammar of calls -----

  /** The connection was completed at place s, after at most one interruption, and from
      then on interruptions and resumptions alternate. */
  predicate CompletedAt(b: seq<Call>, s: nat) {
    && s < |b| && s <= 1 && b[s] == CompleteOk
    && (s == 1 ==> b[0] == Interrupted)
    && forall i | s < i < |b| :: b[i] == if (i - s) % 2 == 1 then Interrupted else Resumed
  }

  /** Calls of a connection that was open at some time. */
  predicate Lived(b: seq<Call>): (r: bool)
    ensures r ==> b != []
  {
    b == [Interrupted] || CompletedAt(b, 0) || CompletedAt(b, 1)
  }

  function Last(b: seq<Call>): Call
    requires b != []
  {
    b[|b| - 1]
  }

  /** The calls of one that lived, and a single disconnect. */
  predicate Ended(b: seq<Call>) {
    b != [] && Last(b) == Disconnect && Lived(b[..|b| - 1])
  }

  /** complete(error), or [interrupted] complete(ok) (interrupted resumed)* [interrupted] or
      a beginning of that; a single disconnect may end the calls of one that lived. */
  predicate Grammar(calls: seq<Call>) {
    calls == [] || calls == [CompleteError] || Lived(calls) || Ended(calls)
  }

  /** What the phase says about the calls, as long as they follow the grammar. */
  predicate Following(c: Conn) {
    && (c.count == 0 <==> CompleteOk !in c.calls)
    && match c.phase
       case Connecting => c.calls == if c.unsent then [CompleteError] else []
       case Connected => Lived(c.calls) && Last(c.calls) != Interrupted
       case Reconnecting => Lived(c.calls) && Last(c.calls) == Interrupted
       case Disconnecting => Lived(c.calls)
       case Disconnected => c.calls == [CompleteError] || Ended(c.calls)
  }

  /** The events that spoil the calls: a CONNECT that is not sent once the connection was
      open; the end of, or an answer on, a first channel whose CONNECT was not sent, of which
      the user was told as a failure; and an answer to a connection that is already up. */
  predicate Breaks(c: Conn, e: Event) {
    match e
    case InitOk(slot, sent) => slot && !sent && c.phase != Connecting
    case Shutdown(_, _) => c.phase == Connecting && c.unsent
    case Connack(_) => c.phase == Connected || (c.phase == Connecting && c.unsent)
    case _ => false
  }

  predicate Unbroken(c: Conn, es: seq<Event>)
    decreases |es|
  {
    es == [] || (!Breaks(c, es[0]) && Unbroken(Next(c, es[0]), es[1..]))
  }

  lemma CompletedLast(b: seq<Call>, s: nat)
    requires CompletedAt(b, s)
    ensures CompleteOk in b && (Last(b) == Interrupted <==> (|b| - s) % 2 == 0)
  {
    assert b[s] in b;
  }

  lemma CompletedMore(b: seq<Call>, s: nat, call: Call)
    requires CompletedAt(b, s) && call == if (|b| - s) % 2 == 1 then Interrupted else Resumed
    ensures CompletedAt(b + [call], s)
  {
  }

  lemma LivedMore(b: seq<Call>, call: Call)
    requires Lived(b)
    requires call == if Last(b) != Interrupted then Interrupted
                     else if CompleteOk in b then Resumed
                     else CompleteOk
    ensures Lived(b + [call])
  {
    hide CompletedAt;
    if s: nat :| s <= 1 && CompletedAt(b, s) {
      CompletedLast(b, s);
      CompletedMore(b, s, call);
    } else {
      SecondCall();
      assert b + [call] == [Interrupted, CompleteOk];
    }
  }

  lemma SecondCall()
    ensures Lived([Interrupted, CompleteOk])
  {
    assert CompletedAt([Interrupted, CompleteOk], 1);
  }

  lemma OneMoreCall(b: seq<Call>, call: Call)
    requires Lived(b)
    ensures Last(b) != Interrupted && call == Interrupted ==> Lived(b + [call])
    ensures Last(b) == Interrupted && CompleteOk in b && call == Resumed ==> Lived(b + [call])
    ensures Last(b) == Interrupted && CompleteOk !in b && call == CompleteOk ==> Lived(b + [call])
    ensures call == Disconnect ==> Ended(b + [call])
    ensures Last(b + [call]) == call
    ensures CompleteOk in b + [call] <==> CompleteOk in b || call == CompleteOk
  {
    hide Lived;
    var due := if Last(b) != Interrupted then Interrupted else if CompleteOk in b then Resumed else CompleteOk;
    LivedMore(b, due);
    assert (b + [call])[..|b|] == b;
  }

  lemma FirstCalls()
    ensures Lived([Interrupted]) && Lived([CompleteOk]) && CompleteOk in [CompleteOk]
  {
    assert CompletedAt([CompleteOk], 0);
  }

  lemma StepFollows(c: Conn, e: Event)
    requires Core(c) && Following(c) && Enabled(c, e) && !Breaks(c, e)
    ensures Following(Next(c, e))
  {
    hide Lived, Ended;
    match e
    case InitError => ClosedFollows(c, false, false);
    case Connack(_) => ConnackFollows(c, e);
    case Shutdown(disconnectInside, attemptBegins) => ClosedFollows(c, disconnectInside, attemptBegins);
    case _ =>
  }

  lemma ConnackFollows(c: Conn, e: Event)
    requires Core(c) && Following(c) && e.Connack? && Enabled(c, e) && !Breaks(c, e)
    ensures Following(Next(c, e))
  {
    hide Lived, Ended;
    FirstCalls();
    if c.phase == Connecting {
      assert Next(c, e).calls == [CompleteOk];
    } else if c.phase == Reconnecting {
      OneMoreCall(c.calls, if c.count > 0 then Resumed else CompleteOk);
    }
  }

  lemma ClosedFollows(c: Conn, disconnectInside: bool, attemptBegins: bool)
    requires Core(c) && Following(c) && (c.activity == Open || c.activity == Attempt)
             && !(c.phase == Connecting && c.unsent)
    ensures Following(Closed(c, disconnectInside, attemptBegins))
  {
    hide Lived, Ended, Interrupt;
    if (c.phase == Connecting && c.slot) || c.phase == Connected {
      InterruptFollows(Quiet(c), disconnectInside, attemptBegins);
    } else if c.phase == Connecting {
      assert c.calls + [CompleteError] == [CompleteError];
    } else if c.phase == Disconnecting {
      OneMoreCall(c.calls, Disconnect);
    }
  }

  lemma InterruptFollows(c: Conn, disconnectInside: bool, attemptBegins: bool)
    requires c.calls == [] || (Lived(c.calls) && Last(c.calls) != Interrupted)
    requires c.count == 0 <==> CompleteOk !in c.calls
    ensures Following(Interrupt(c, disconnectInside, attemptBegins))
  {
    hide Lived, Ended;
    FirstCalls();
    if c.calls == [] {
      assert c.calls + [Interrupted] == [Interrupted];
    } else {
      OneMoreCall(c.calls, Interrupted);
    }
    OneMoreCall(c.calls + [Interrupted], Disconnect);
  }

  lemma FollowingIsGrammar(c: Conn)
    requires Following(c)
    ensures Grammar(c.calls)
  {
  }

  /** What was spoiled stays spoiled: every beginning of good calls is good. */
  lemma GrammarOfPrefix(a: seq<Call>, b: seq<Call>)
    requires a <= b && Grammar(b)
    ensures Grammar(a)
  {
    hide Lived;
    if a != b {
      if Lived(b) {
        LivedPrefix(a, b);
      } else if Ended(b) {
        assert a <= b[..|b| - 1];
        LivedPrefix(a, b[..|b| - 1]);
      }
    }
  }

  lemma LivedPrefix(a: seq<Call>, b: seq<Call>)
    requires a <= b && Lived(b)
    ensures a == [] || Lived(a)
  {
    if a != [] && a != b {
      assert forall i | 0 <= i < |a| :: a[i] == b[i];
      if CompletedAt(b, 0) {
        assert CompletedAt(a, 0);
      } else if |a| == 1 {
        assert a == [Interrupted];
      } else {
        assert CompletedAt(a, 1);
      }
    }
  }

  /** Neither a failure nor another completion can follow in the calls of one that lived. */
  lemma SpoiledCall(b: seq<Call>, call: Call)
    requires Lived(b) && (call == CompleteError || (call == CompleteOk && Last(b) != Interrupted))
    ensures !Grammar(b + [call])
  {
    var d, n := b + [call], |b|;
    assert d[n] == call && d[..n] == b;
    assert !CompletedAt(d, 0);
    if n == 1 { assert d[0] == b[0] == Last(b); }
    assert !CompletedAt(d, 1);
  }

  /** Nor anything after a first failure. */
  lemma NothingAfterFailure(d: seq<Call>)
    requires |d| > 1 && d[0] == CompleteError
    ensures !Grammar(d)
  {
    assert d[..|d| - 1][0] == CompleteError;
  }

  lemma StepBreaks(c: Conn, e: Event)
    requires Core(c) && Following(c) && Enabled(c, e) && Breaks(c, e)
    ensures !Grammar(Next(c, e).calls)
  {
    hide Lived, Grammar;
    if c.phase == Connecting {
      NothingAfterFailure(Next(c, e).calls);
    } else {
      SpoiledCall(c.calls, if e.InitOk? then CompleteError else CompleteOk);
    }
  }

  lemma StepCalls(c: Conn, e: Event)
    ensures c.calls <= Next(c, e).calls
  {
    hide Closed;
    if e.InitError? { ClosedCalls(c, false, false); }
    if e.Shutdown? { ClosedCalls(c, e.disconnectInside, e.attemptBegins); }
  }

  lemma ClosedCalls(c: Conn, disconnectInside: bool, attemptBegins: bool)
    ensures c.calls <= Closed(c, disconnectInside, attemptBegins).calls
  {
    assert Quiet(c).calls == c.calls;
  }

  lemma {:induction false} CallsGrow(c: Conn, es: seq<Event>)
    ensures c.calls <= Exec(c, es).calls
    decreases |es|
  {
    hide Next;
    if es != [] {
      StepCalls(c, es[0]);
      CallsGrow(Next(c, es[0]), es[1..]);
    }
  }

  lemma {:induction false} GrammarFrom(c: Conn, es: seq<Event>)
    requires Core(c) && Following(c) && Legal(c, es)
    ensures Grammar(Exec(c, es).calls) <==> Unbroken(c, es)
    decreases |es|
  {
    hide Next, Enabled, Breaks, Grammar, Core, Following;
    if es == [] {
      FollowingIsGrammar(c);
    } else {
      var c' := Next(c, es[0]);
      StepCore(c, es[0]);
      if Breaks(c, es[0]) {
        StepBreaks(c, es[0]);
        CallsGrow(c', es[1..]);
        if Grammar(Exec(c, es).calls) { GrammarOfPrefix(c'.calls, Exec(c, es).calls); }
      } else {
        StepFollows(c, es[0]);
        GrammarFrom(c', es[1..]);
      }
    }
  }

  /** The main law of the calls, for every run: they follow the grammar if and only if no
      event of the run breaks them. */
  lemma GrammarOverRuns(min: nat, max: nat, es: seq<Event>)
    requires Legal(Start(min, max), es)
    ensures Grammar(Exec(Start(min, max), es).calls) <==> Unbroken(Start(min, max), es)
  {
    hide Exec, Unbroken, Legal, Grammar;
    GrammarFrom(Start(min, max), es);
  }

  lemma FirstEvent(c: Conn, e: Event, es: seq<Event>)
    ensures Legal(c, [e] + es) <==> Enabled(c, e) && Legal(Next(c, e), es)
    ensures Unbroken(c, [e] + es) <==> !Breaks(c, e) && Unbroken(Next(c, e), es)
    ensures Exec(c, [e] + es) == Exec(Next(c, e), es)
  {
    assert ([e] + es)[1..] == es;
  }

  lemma NoEvent(c: Conn)
    ensures Legal(c, []) && Unbroken(c, []) && Exec(c, []) == c
  {
  }

  /** Each of the breaking events does happen. A first CONNECT that is not sent is reported
      as a failure, and the end of its channel as an interruption. */
  lemma UnsentFirst(c: Conn)
    requires c == Start(c.min, c.max)
    ensures var es := [InitOk(true, false), Shutdown(false, true)];
            Legal(c, es) && Exec(c, es).calls == [CompleteError, Interrupted] && !Unbroken(c, es)
  {
    hide Legal, Exec, Unbroken;
    var open, end := InitOk(true, false), Shutdown(false, true);
    FirstEvent(c, open, [end]);
    FirstEvent(Next(c, open), end, []);
    NoEvent(Next(Next(c, open), end));
    assert [open] + [end] == [open, end] && [end] + [] == [end];
  }

  /** A later one is reported as a failure to complete. */
  lemma UnsentLater(c: Conn)
    requires c == Start(c.min, c.max)
    ensures var es := [InitOk(true, true), Connack(true), Shutdown(false, true), InitOk(true, false)];
            Legal(c, es) && Exec(c, es).calls == [CompleteOk, Interrupted, CompleteError] && !Unbroken(c, es)
  {
    hide Legal, Exec, Unbroken, Next;
    var open, answer, end, again := InitOk(true, true), Connack(true), Shutdown(false, true), InitOk(true, false);
    var c2 := AnsweredOnce(c, [end, again]);
    var c3 := Next(c2, end);
    FirstEvent(c2, end, [again]);
    FirstEvent(c3, again, []);
    NoEvent(Next(c3, again));
    LostAndUnsent(c2, c3);
    assert [end] + [again] == [end, again] && [again] + [] == [again];
    assert [open, answer] + [end, again] == [open, answer, end, again];
  }

  /** And a second answer as a second completion. */
  lemma AnsweredTwice(c: Conn)
    requires c == Start(c.min, c.max)
    ensures var es := [InitOk(true, true), Connack(true), Connack(true)];
            Legal(c, es) && Exec(c, es).calls == [CompleteOk, CompleteOk] && !Unbroken(c, es)
  {
    hide Legal, Exec, Unbroken;
    var answer := Connack(true);
    var c2 := AnsweredOnce(c, [answer]);
    FirstEvent(c2, answer, []);
    NoEvent(Next(c2, answer));
    assert [answer] + [] == [answer];
    assert [InitOk(true, true), answer] + [answer] == [InitOk(true, true), answer, answer];
  }

  lemma AnsweredOnce(c: Conn, es: seq<Event>) returns (c2: Conn)
    requires c == Start(c.min, c.max)
    ensures c2.phase == Connected && c2.slot && c2.activity == Open && c2.calls == [CompleteOk]
    ensures c2.attached && c2.closing == 0 && !c2.crashed
    ensures var all := [InitOk(true, true), Connack(true)] + es;
            && (Legal(c, all) <==> Legal(c2, es)) && (Unbroken(c, all) <==> Unbroken(c2, es))
            && Exec(c, all) == Exec(c2, es)
  {
    hide Legal, Exec, Unbroken;
    var open, answer := InitOk(true, true), Connack(true);
    var c1 := Next(c, open);
    c2 := Next(c1, answer);
    FirstEvent(c, open, [answer] + es);
    FirstEvent(c1, answer, es);
    assert [open] + ([answer] + es) == [open, answer] + es;
  }

  lemma LostAndUnsent(c2: Conn, c3: Conn)
    requires c2.phase == Connected && c2.activity == Open && c2.calls == [CompleteOk] && !c2.crashed
    requires c3 == Next(c2, Shutdown(false, true))
    ensures c3.phase == Reconnecting && c3.activity == Attempt && !c3.crashed
    ensures Next(c3, InitOk(true, false)).calls == [CompleteOk, Interrupted, CompleteError]
  {
  }

  // ----- waiting between attempts -----

  function Pow2(k: nat): nat {
    if k == 0 then 1 else 2 * Pow2(k - 1)
  }

  /** The wait at the k-th attempt in a row. */
  function Wait(min: nat, max: nat, k: nat): nat {
    if k == 0 then min
    else var w := Wait(min, max, k - 1); if w > max / 2 then max else w * 2
  }

  function Smaller(a: nat, b: nat): nat { if a <= b then a else b }

  lemma {:induction false} WaitIs(min: nat, max: nat, k: nat)
    requires min <= max
    ensures Wait(min, max, k) == Smaller(min * Pow2(k), max)
  {
    if k > 0 {
      WaitIs(min, max, k - 1);
      DoubledProduct(min, Pow2(k - 1));
    }
  }

  lemma DoubledProduct(a: nat, b: nat)
    ensures a * (2 * b) == 2 * (a * b)
  {
  }

  /** The waits are the doubled minimum, capped by the maximum, exactly when the minimum is
      not above the maximum. */
  lemma WaitClosedForm(min: nat, max: nat)
    ensures (forall k: nat :: Wait(min, max, k) == Smaller(min * Pow2(k), max)) <==> min <= max
  {
    if min <= max {
      forall k: nat ensures Wait(min, max, k) == Smaller(min * Pow2(k), max) { WaitIs(min, max, k); }
    } else {
      assert Wait(min, max, 0) == min != Smaller(min * Pow2(0), max);
    }
  }

  /** Neither a wait nor the doubling of one leaves 64 bits. */
  lemma {:induction false} WaitFits(min: nat, max: nat, k: nat)
    requires min < U64 && max < U64
    ensures Wait(min, max, k) < U64 && (Wait(min, max, k) <= max / 2 ==> Wait(min, max, k) * 2 < U64)
  {
    if k > 0 { WaitFits(min, max, k - 1); }
  }

  /** Once at the maximum, always at the maximum, however the minimum was set. */
  lemma {:induction false} StaysAtMax(min: nat, max: nat, j: nat, k: nat)
    requires j <= k && Wait(min, max, j) == max
    ensures Wait(min, max, k) == max
  {
    if j < k { StaysAtMax(min, max, j, k - 1); }
  }

  predicate WaitsSound(c: Conn) {
    && (forall k | 0 <= k < |c.waits| :: c.waits[k] == Wait(c.min, c.max, k))
    && (c.activity == Scheduled || c.activity == Open || c.phase == Reconnecting || c.waits != [] ==>
          c.current == Wait(c.min, c.max, |c.waits|))
  }

  /** On every run, the waits since a channel was last opened are those, in order. */
  lemma {:induction false} RunsWait(c: Conn, es: seq<Event>)
    requires Core(c) && WaitsSound(c) && Legal(c, es)
    ensures WaitsSound(Exec(c, es))
    decreases |es|
  {
    hide Next, Enabled, WaitsSound, Core;
    if es != [] {
      StepCore(c, es[0]);
      StepWaits(c, es[0]);
      RunsWait(Next(c, es[0]), es[1..]);
    }
  }

  lemma StepWaits(c: Conn, e: Event)
    requires Core(c) && WaitsSound(c) && Enabled(c, e)
    ensures WaitsSound(Next(c, e))
  {
    hide Wait, Reconnect;
    FirstWait(c.min, c.max);
    if e.TaskRuns? { ReconnectWaits(c, e.attemptBegins); }
    if e.Shutdown? && (c.phase == Connected || (c.phase == Connecting && c.slot)) {
      ReconnectWaits(Quiet(c).(phase := Reconnecting, calls := c.calls + [Interrupted]), e.attemptBegins);
    }
  }

  lemma FirstWait(min: nat, max: nat)
    ensures Wait(min, max, 0) == min
  {
  }

  lemma ReconnectWaits(c: Conn, attemptBegins: bool)
    requires WaitsSound(c) && c.current == Wait(c.min, c.max, |c.waits|)
    ensures WaitsSound(Reconnect(c, attemptBegins))
  {
    assert Wait(c.min, c.max, |c.waits| + 1) == Reconnect(c, attemptBegins).current;
  }

  /** The events that make an attempt after a wait was computed. */
  predicate Tries(c: Conn, e: Event) {
    e.TaskRuns? || Loses(c, e)
  }

  /** How many there were since a channel was last opened. */
  function TriesSince(c: Conn, es: seq<Event>): nat
    decreases |es|
  {
    if es == [] || Final(es).InitOk? then 0
    else TriesSince(c, Front(es)) + (if Tries(Exec(c, Front(es)), Final(es)) then 1 else 0)
  }

  lemma TriesStep(c: Conn, e: Event)
    requires Core(c) && WaitsSound(c) && Enabled(c, e)
    ensures var c' := Next(c, e);
            c'.waits == if e.InitOk? then []
                        else if Tries(c, e) then c.waits + [Wait(c.min, c.max, |c.waits|)]
                        else c.waits
  {
    hide Wait;
  }

  lemma {:induction false} TriesAreWaits(min: nat, max: nat, es: seq<Event>)
    requires Legal(Start(min, max), es)
    ensures |Exec(Start(min, max), es).waits| == TriesSince(Start(min, max), es)
    decreases |es|
  {
    hide Next, Enabled, Core, Tries, WaitsSound;
    if es != [] {
      var c := BeforeLast(min, max, es);
      TriesAreWaits(min, max, Front(es));
      StartSound(min, max);
      RunsWait(Start(min, max), Front(es));
      TriesStep(c, Final(es));
    }
  }

  lemma StartSound(min: nat, max: nat)
    ensures Core(Start(min, max)) && WaitsSound(Start(min, max))
  {
  }

  /** So on every run, the waits are those of the attempts since a channel was last opened, and the k-th is the
      minimum doubled k times, or the maximum if that is less. */
  lemma BackoffOverRuns(min: nat, max: nat, es: seq<Event>)
    requires min <= max && Legal(Start(min, max), es)
    ensures var c := Exec(Start(min, max), es);
            && c.min == min && c.max == max && |c.waits| == TriesSince(Start(min, max), es)
            && forall k | 0 <= k < |c.waits| :: c.waits[k] == Smaller(min * Pow2(k), max)
  {
    hide Exec, Legal, TriesSince, Core, WaitsSound;
    var c := Exec(Start(min, max), es);
    StartSound(min, max);
    RunsWait(Start(min, max), es);
    LimitsStay(Start(min, max), es);
    TriesAreWaits(min, max, es);
    forall k | 0 <= k < |c.waits| ensures c.waits[k] == Smaller(min * Pow2(k), max) {
      WaitAt(c, k);
      WaitIs(min, max, k);
    }
  }

  lemma WaitAt(c: Conn, k: nat)
    requires WaitsSound(c) && k < |c.waits|
    ensures c.waits[k] == Wait(c.min, c.max, k)
  {
  }

  /** And each attempt is followed by the wait that its number since then says: the first after any
      reopening by the minimum. */
  lemma AttemptWaits(min: nat, max: nat, es: seq<Event>, e: Event)
    requires min <= max && Legal(Start(min, max), es + [e]) && Tries(Exec(Start(min, max), es), e)
    ensures var s := Start(min, max);
            Exec(s, es + [e]).waits == Exec(s, es).waits + [Smaller(min * Pow2(TriesSince(s, es)), max)]
  {
    hide Next, Enabled, Core, WaitsSound, TriesSince, Exec, Legal;
    var s := Start(min, max);
    assert Front(es + [e]) == es && Final(es + [e]) == e;
    var c := BeforeLast(min, max, es + [e]);
    StartSound(min, max);
    RunsWait(s, es);
    LimitsStay(s, es);
    TriesAreWaits(min, max, es);
    TriesStep(c, e);
    WaitIs(min, max, TriesSince(s, es));
  }

  lemma {:induction false} LimitsStay(c: Conn, es: seq<Event>)
    ensures Exec(c, es).min == c.min && Exec(c, es).max == c.max
    decreases |es|
  {
    hide Next;
    if es != [] {
      LimitsStep(c, es[0]);
      LimitsStay(Next(c, es[0]), es[1..]);
    }
  }

  lemma LimitsStep(c: Conn, e: Event)
    ensures Next(c, e).min == c.min && Next(c, e).max == c.max
  {
    match e {
      case InitError =>
      case InitOk(_, _) =>
      case Connack(_) =>
      case OtherPacket =>
      case UserDisconnect =>
      case DisconnectTask =>
      case LateDisconnectTask =>
      case Shutdown(_, _) =>
      case TaskRuns(_) =>
      case TaskCancelled =>
    }
  }

  // ----- the client's own code -----

  class Connection {
    var phase: Phase
    var count: nat
    var slot: bool
    var unsent: bool
    var closing: nat
    var late: nat
    var crashed: bool
    var activity: Activity
    var attached: bool
    var freed: nat
    var min: nat
    var max: nat
    var current: nat
    var waits: seq<nat>
    var calls: seq<Call>

    function View(): Conn
      reads this
    {
      Conn(phase, count, slot, unsent, closing, late, crashed, activity, attached, freed, min, max, current, waits,
           calls)
    }

    predicate Valid()
      reads this
    {
      Core(View()) && WaitsSound(View()) && min < U64 && max < U64 && !crashed
    }

    /** aws_mqtt_client_connection_connect. */
    constructor (min: nat, max: nat)
      requires min < U64 && max < U64
      ensures Valid() && View() == Start(min, max)
    {
      phase, count, slot, unsent, activity := Connecting, 0, false, false, Attempt;
      closing, late, crashed := 0, 0, false;
      attached, freed := true, 0;
      this.min, this.max, current, waits, calls := min, max, 0, [], [];
    }

    /** s_attempt_reconect, on its own task and from s_mqtt_client_shutdown. The doubled wait has 64 bits. */
    method AttemptReconnect(ready: bool, attemptBegins: bool)
      requires max < U64
      modifies this
      ensures View() == Attempted(old(View()), ready, attemptBegins)
      ensures min == old(min) && max == old(max) && crashed == old(crashed)
    {
      if ready && attached {
        waits := waits + [current];
        if current > max / 2 {
          current := max;
        } else {
          assert current * 2 < U64;
          current := current * 2;
        }
        if !attemptBegins {
          activity := Scheduled;
        } else {
          activity := Attempt;
        }
      } else {
        activity, attached, freed := Nothing, false, freed + 1;
      }
    }

    /** s_attempt_reconect when its scheduled time has come. */
    method OnTask(attemptBegins: bool)
      requires Valid() && activity == Scheduled
      modifies this
      ensures Valid() && View() == Next(old(View()), TaskRuns(attemptBegins))
    {
      hide Core, WaitsSound, Attempted;
      StepCore(View(), TaskRuns(attemptBegins));
      StepWaits(View(), TaskRuns(attemptBegins));
      AttemptReconnect(true, attemptBegins);
    }

    /** s_attempt_reconect when the event loop goes away: the task frees itself. */
    method OnTaskCancelled()
      requires Valid() && activity == Scheduled
      modifies this
      ensures Valid() && View() == Next(old(View()), TaskCancelled)
    {
      hide Core, WaitsSound, Attempted;
      StepCore(View(), TaskCancelled);
      StepWaits(View(), TaskCancelled);
      AttemptReconnect(false, false);
    }

    /** s_mqtt_client_shutdown. Its assertions about the phase hold. */
    method OnShutdown(disconnectInside: bool, attemptBegins: bool)
      requires Valid() && (activity == Open || activity == Attempt)
      modifies this
      ensures Valid() && View() == Closed(old(View()), disconnectInside, attemptBegins)
    {
      hide Core, WaitsSound, Interrupt;
      ShutdownSound(View(), disconnectInside, attemptBegins);
      RemoveSlot();
      if phase == Reconnecting {
        assert attached;
        activity := Scheduled;
      } else if phase == Disconnecting {
        phase := Disconnected;
        calls := calls + [Disconnect];
      } else if phase == Connecting {
        phase := Disconnected;
        calls := calls + [CompleteError];
      } else {
        assert phase == Connected;
        LoseConnection(disconnectInside, attemptBegins);
      }
    }

    method RemoveSlot()
      modifies this
      ensures View() == Quiet(old(View()))
    {
      activity, closing, late, unsent := Nothing, 0, late + closing, false;
      if slot {
        if phase == Connecting { phase := Connected; }
        slot := false;
      }
    }

    /** Its last case: report the interruption, in which the user may disconnect, and try again. */
    method LoseConnection(disconnectInside: bool, attemptBegins: bool)
      requires attached && max < U64
      modifies this
      ensures View() == Interrupt(old(View()), disconnectInside, attemptBegins)
      ensures min == old(min) && max == old(max) && crashed == old(crashed)
    {
      phase := Reconnecting;
      calls := calls + [Interrupted];
      if disconnectInside { phase := Disconnecting; }
      if phase == Disconnecting {
        phase := Disconnected;
        calls := calls + [Disconnect];
      } else {
        AttemptReconnect(true, attemptBegins);
      }
    }

    /** s_mqtt_client_init with an error. */
    method OnInitError()
      requires Valid() && activity == Attempt
      modifies this
      ensures Valid() && View() == Next(old(View()), InitError)
    {
      OnShutdown(false, false);
    }

    /** s_mqtt_client_init with a channel, whether or not the CONNECT can be sent. */
    method OnInit(slotMade: bool, sent: bool)
      requires Valid() && activity == Attempt
      modifies this
      ensures Valid() && View() == Next(old(View()), InitOk(slotMade, sent))
    {
      hide Core, WaitsSound;
      StepCore(View(), InitOk(slotMade, sent));
      StepWaits(View(), InitOk(slotMade, sent));
      activity, unsent := Open, false;
      current, waits := min, [];
      slot := slotMade;
      if !slotMade { return; }
      if !sent {
        unsent := true;
        calls := calls + [CompleteError];
      }
    }

    /** s_packet_handler_connack. */
    method OnConnack(accepted: bool)
      requires Valid() && Enabled(View(), Connack(accepted))
      modifies this
      ensures Valid() && View() == Next(old(View()), Connack(accepted))
    {
      hide Core, WaitsSound;
      StepCore(View(), Connack(accepted));
      StepWaits(View(), Connack(accepted));
      if phase == Disconnecting || phase == Disconnected { return; }
      var wasReconnecting := phase == Reconnecting;
      phase := Connected;
      count := count + 1;
      if wasReconnecting && count > 1 {
        calls := calls + [Resumed];
      } else {
        calls := calls + [CompleteOk];
      }
      if !accepted { QueueDisconnect(); }
    }

    /** aws_mqtt_client_connection_disconnect. */
    method UserDisconnects() returns (ok: bool)
      requires Valid()
      modifies this
      ensures Valid() && View() == Next(old(View()), UserDisconnect)
      ensures ok <==> old(phase) == Connected || old(phase) == Reconnecting
    {
      hide Core, WaitsSound;
      StepCore(View(), UserDisconnect);
      StepWaits(View(), UserDisconnect);
      if phase == Connected || phase == Reconnecting {
        phase := Disconnecting;
        QueueDisconnect();
        return true;
      }
      return false;
    }

    /** mqtt_disconnect_impl. */
    method QueueDisconnect()
      modifies this`closing
      ensures closing == if slot then old(closing) + 1 else old(closing)
    {
      if slot { closing := closing + 1; }
    }

    /** The start of s_process_mqtt_packet: before its CONNACK a server may send nothing else. */
    method OnOtherPacket() returns (ok: bool)
      requires Valid() && Enabled(View(), OtherPacket)
      modifies this
      ensures Valid() && View() == Next(old(View()), OtherPacket) && (ok <==> phase != Connecting)
    {
      hide Core, WaitsSound;
      StepCore(View(), OtherPacket);
      StepWaits(View(), OtherPacket);
      if phase == Connecting {
        QueueDisconnect();
        return false;
      }
      return true;
    }

    /** s_mqtt_disconnect_task, up to where it reads the slot. */
    method Detach()
      modifies this`attached, this`freed
      ensures View() == Detached(old(View()))
    {
      if phase == Disconnecting && attached {
        if activity != Scheduled { freed := freed + 1; }
        attached := false;
      }
    }

    /** s_mqtt_disconnect_task while its channel is open. The slot is there. */
    method OnDisconnectTask()
      requires Valid() && Enabled(View(), DisconnectTask)
      modifies this
      ensures Valid() && View() == Next(old(View()), DisconnectTask) && slot
    {
      hide WaitsSound;
      StepCore(View(), DisconnectTask);
      StepWaits(View(), DisconnectTask);
      closing := closing - 1;
      Detach();
    }

    /** s_mqtt_disconnect_task when its channel is gone: it shuts down a later channel, or finds
        no slot. */
    method OnLateDisconnectTask()
      requires Valid() && Enabled(View(), LateDisconnectTask)
      modifies this
      ensures View() == Next(old(View()), LateDisconnectTask) && (Valid() <==> slot)
    {
      hide Core, WaitsSound;
      StepCore(View(), LateDisconnectTask);
      StepWaits(View(), LateDisconnectTask);
      late := late - 1;
      Detach();
      crashed := !slot;
    }
  }

  lemma ShutdownSound(c: Conn, disconnectInside: bool, attemptBegins: bool)
    requires Core(c) && WaitsSound(c) && !c.crashed && (c.activity == Open || c.activity == Attempt)
    ensures c.phase != Disconnected && (c.phase != Disconnecting ==> c.attached) && (c.slot ==> c.activity == Open)
    ensures var c' := Closed(c, disconnectInside, attemptBegins); Core(c') && WaitsSound(c')
  {
    var e := Shutdown(disconnectInside, attemptBegins);
    if c.activity == Open {
      StepCore(c, e);
      StepWaits(c, e);
    } else {
      StepCore(c, InitError);
      StepWaits(c, InitError);
    }
  }
}
