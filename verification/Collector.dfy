/** The batching collector of billing events (billing/events.go). */
module Collector {

  datatype Event = Event(apiKey: string, model: string, prompt: int, completion: int, total: int, year: int)

  /** JSON has no timestamp outside the years 0 to 9999; every other field can be encoded. */
  predicate Encodable(e: Event) {
    0 <= e.year <= 9999
  }

  function Accepted(events: seq<Event>): seq<Event> {
    if events == [] then []
    else
      Accepted(events[..|events| - 1])
      + (if Encodable(events[|events| - 1]) then [events[|events| - 1]] else [])
  }

  function Flatten(batches: seq<seq<Event>>): seq<Event> {
    if batches == [] then [] else Flatten(batches[..|batches| - 1]) + batches[|batches| - 1]
  }

  lemma FlattenSnoc(batches: seq<seq<Event>>, batch: seq<Event>)
    ensures Flatten(batches + [batch]) == Flatten(batches) + batch
  {
    assert (batches + [batch])[..|batches|] == batches;
  }

  lemma AcceptedSnoc(events: seq<Event>, e: Event)
    ensures Accepted(events + [e]) == Accepted(events) + if Encodable(e) then [e] else []
  {
    assert (events + [e])[..|events|] == events;
  }

  // ---- The queue and its backing array ----

  /** What is queued, and all that was ever given to AddEvent. */
  datatype Queue = Queue(pending: seq<Event>, added: seq<Event>)

  function Enqueue(q: Queue, e: Event): Queue {
    Queue(if Encodable(e) then q.pending + [e] else q.pending, q.added + [e])
  }

  function Emptied(q: Queue): Queue {
    q.(pending := [])
  }

  /** The queue is the first `count` elements of an array that is reused after every batch. */
  class Collector {
    var buffer: array<Event>
    var count: nat
    ghost var added: seq<Event>                // every event given to AddEvent, in order
    ghost var batches: seq<seq<Event>>         // every batch taken, in order
    ghost var copies: map<array<Event>, seq<Event>>  // the arrays handed out, with what they held

    /** Nothing is lost, duplicated or reordered, and no array handed out has changed since. */
    ghost predicate Valid()
      reads this, buffer, set a | a in copies
    {
      && count <= buffer.Length && buffer !in copies
      && Flatten(batches) + Pending() == Accepted(added)
      && forall a :: a in copies ==> a[..] == copies[a]
    }

    ghost function Pending(): seq<Event>
      requires count <= buffer.Length
      reads this, buffer
    {
      buffer[..count]
    }

    ghost function View(): Queue
      requires count <= buffer.Length
      reads this, buffer
    {
      Queue(Pending(), added)
    }

    constructor ()
      ensures Valid() && added == [] && batches == [] && copies == map[] && fresh(buffer)
    {
      buffer, count := new Event[0], 0;
      added, batches, copies := [], [], map[];
    }

    /** Go's append: in place while there is room, else into a new array with `room` to spare. */
    method Append(e: Event, room: nat)
      requires count <= buffer.Length
      modifies this`buffer, this`count, buffer
      ensures count <= buffer.Length && Pending() == old(Pending()) + [e]
      ensures buffer == old(buffer) || fresh(buffer)
      ensures old(count < buffer.Length) <==> buffer == old(buffer)
      ensures buffer != old(buffer) ==> old(buffer)[..] == old(buffer[..])
    {
      if count == buffer.Length {
        var larger := new Event[count + 1 + room](_ => e);
        for i := 0 to count
          invariant buffer == old(buffer) && count == old(count)
          invariant larger[..i] == buffer[..i] && buffer[..] == old(buffer[..])
          invariant larger != buffer
        {
          larger[i] := buffer[i];
        }
        buffer := larger;
      }
      buffer[count] := e;
      count := count + 1;
    }

    method AddEvent(e: Event, room: nat)
      requires Valid()
      modifies this, buffer
      ensures Valid()
      ensures View() == Enqueue(old(View()), e) && batches == old(batches) && copies == old(copies)
      ensures buffer == old(buffer) || fresh(buffer)
    {
      hide Accepted, Flatten;
      AcceptedSnoc(added, e);
      ghost var before := Pending();
      if 0 <= e.year <= 9999 {
        Append(e, room);
      } else {
        assert before + [] == before;
      }
      assert Flatten(batches) + (before + if Encodable(e) then [e] else [])
          == Flatten(batches) + before + if Encodable(e) then [e] else [];
      added := added + [e];
    }

    method Copied() returns (copy: array<Event>)
      requires Valid()
      ensures fresh(copy) && copy[..] == Pending()
    {
      if count == 0 {
        copy := new Event[0];
        return;
      }
      var first := buffer[0];
      copy := new Event[count](_ => first);
      for i := 0 to count
        invariant copy[..i] == buffer[..i]
      {
        copy[i] := buffer[i];
      }
    }

    /** A snapshot that later appends do not touch. */
    method GetEvents() returns (copy: array<Event>)
      requires Valid()
      modifies this`copies
      ensures Valid()
      ensures fresh(copy) && copy[..] == Pending() && Pending() == old(Pending())
      ensures copies == old(copies)[copy := Pending()]
    {
      copy := Copied();
      copies := copies[copy := copy[..]];
    }

    /** Takes the queue as a batch of its own and starts over in the same backing array; null if it is empty. */
    method TakeBatch() returns (batch: array?<Event>)
      requires Valid()
      modifies this`count, this`batches, this`copies
      ensures Valid() && View() == Emptied(old(View())) && buffer == old(buffer)
      ensures batch == null <==> old(Pending()) == []
      ensures batch == null ==> batches == old(batches) && copies == old(copies)
      ensures batch != null ==>
        && fresh(batch) && batch[..] == old(Pending())
        && batches == old(batches) + [batch[..]] && copies == old(copies)[batch := batch[..]]
    {
      hide Flatten;
      if count == 0 {
        return null;
      }
      var taken := Copied();
      copies := copies[taken := taken[..]];
      FlattenSnoc(batches, taken[..]);
      batches := batches + [taken[..]];
      assert buffer[..0] == [];
      count := 0;
      return taken;
    }
  }

  // ---- The worker ----

  datatype Worker =
    | Waiting                                     // for the ticker or for quit
    | Sending(batch: seq<Event>, last: bool)      // the batch was taken, the queue is unlocked again
    | Finished

  /** `urlParses` says whether a request to the control plane can be built at all. */
  datatype System = System(
    urlParses: bool, queue: Queue, worker: Worker, quit: bool, attempts: seq<seq<Event>>, addedBeforeStop: nat)

  datatype Action =
    | Add(event: Event)
    | Tick
    | Stop
    | NoticeQuit
    | Send

  function Started(urlParses: bool): System {
    System(urlParses, Queue([], []), Waiting, false, [], 0)
  }

  /** The critical section of sendBatch; an empty queue is not sent. */
  function Take(s: System, last: bool): System {
    if s.queue.pending == [] then s.(worker := if last then Finished else Waiting)
    else s.(worker := Sending(s.queue.pending, last), queue := Emptied(s.queue))
  }

  predicate AllEncodable(events: seq<Event>) {
    forall i :: 0 <= i < |events| ==> Encodable(events[i])
  }

  /** One step of some goroutine; a step that is not enabled changes nothing. */
  function Step(s: System, a: Action): System {
    match a
    case Add(e) => s.(queue := Enqueue(s.queue, e))
    case Tick => if s.worker.Waiting? then Take(s, false) else s
    case Stop => if s.quit then s else s.(quit := true, addedBeforeStop := |s.queue.added|)
    case NoticeQuit => if s.worker.Waiting? && s.quit then Take(s, true) else s
    case Send =>
      if !s.worker.Sending? then s
      else
        s.(worker := if s.worker.last then Finished else Waiting,
           attempts := if AllEncodable(s.worker.batch) && s.urlParses then s.attempts + [s.worker.batch]
                       else s.attempts)
  }

  function Run(s: System, actions: seq<Action>): System {
    if actions == [] then s else Step(Run(s, actions[..|actions| - 1]), actions[|actions| - 1])
  }

  function InFlight(s: System): seq<Event> {
    if s.worker.Sending? then s.worker.batch else []
  }

  /** With a usable URL, what was attempted, what is being sent and what is queued are together the accepted
      events, in order; once the worker is finished, nothing added before Stop is left in the queue. */
  ghost predicate Conserved(s: System) {
    && (s.urlParses ==> Flatten(s.attempts) + InFlight(s) + s.queue.pending == Accepted(s.queue.added))
    && (!s.urlParses ==> s.attempts == [])
    && AllEncodable(InFlight(s)) && AllEncodable(s.queue.pending)
    && s.addedBeforeStop <= |s.queue.added|
    && (s.worker.Finished? || (s.worker.Sending? && s.worker.last) ==>
          s.quit && |s.queue.pending| <= |Accepted(s.queue.added)| - |Accepted(s.queue.added[..s.addedBeforeStop])|)
  }

  lemma AddConserves(s: System, e: Event)
    requires Conserved(s)
    ensures Conserved(Step(s, Add(e)))
  {
    hide Flatten, Accepted;
    AcceptedSnoc(s.queue.added, e);
    var s' := Step(s, Add(e));
    assert s'.queue.added[..s.addedBeforeStop] == s.queue.added[..s.addedBeforeStop];
    assert Accepted(s.queue.added) + [] == Accepted(s.queue.added);
    if s.urlParses {
      assert Flatten(s.attempts) + InFlight(s) + (s.queue.pending + [e])
          == Flatten(s.attempts) + InFlight(s) + s.queue.pending + [e];
    }
  }

  lemma TakeConserves(s: System, last: bool)
    requires Conserved(s) && s.worker.Waiting? && (last ==> s.quit)
    ensures Conserved(Take(s, last))
  {
    hide Flatten, Accepted;
    if s.urlParses {
      assert Flatten(s.attempts) + [] + s.queue.pending == Flatten(s.attempts) + s.queue.pending + [];
    }
    AcceptedMonotone(s.queue.added, s.addedBeforeStop);
  }

  lemma {:induction false} AcceptedMonotone(events: seq<Event>, n: nat)
    requires n <= |events|
    ensures |Accepted(events[..n])| <= |Accepted(events)|
  {
    if n < |events| {
      AcceptedMonotone(events[..|events| - 1], n);
      assert events[..|events| - 1][..n] == events[..n];
    } else {
      assert events[..n] == events;
    }
  }

  lemma SendConserves(s: System)
    requires Conserved(s) && s.worker.Sending?
    ensures Conserved(Step(s, Send))
  {
    hide Flatten, Accepted;
    FlattenSnoc(s.attempts, s.worker.batch);
    if s.urlParses {
      assert Flatten(s.attempts) + s.worker.batch + [] + s.queue.pending
          == Flatten(s.attempts) + s.worker.batch + s.queue.pending;
    }
  }

  lemma {:induction false} RunConserves(urlParses: bool, actions: seq<Action>)
    ensures Conserved(Run(Started(urlParses), actions)) && Run(Started(urlParses), actions).urlParses == urlParses
  {
    hide Flatten, Accepted, Conserved, Take;
    if actions == [] {
      StartConserved(urlParses);
    } else {
      RunConserves(urlParses, actions[..|actions| - 1]);
      var s := Run(Started(urlParses), actions[..|actions| - 1]);
      var a := actions[|actions| - 1];
      match a {
        case Add(e) => AddConserves(s, e);
        case Tick => if s.worker.Waiting? { TakeConserves(s, false); TakeKeepsUrl(s, false); }
        case Stop => StopConserves(s);
        case NoticeQuit => if s.worker.Waiting? && s.quit { TakeConserves(s, true); TakeKeepsUrl(s, true); }
        case Send => if s.worker.Sending? { SendConserves(s); }
      }
    }
  }

  lemma TakeKeepsUrl(s: System, last: bool)
    ensures Take(s, last).urlParses == s.urlParses
  {
  }

  lemma StartConserved(urlParses: bool)
    ensures Conserved(Started(urlParses))
  {
  }

  lemma StopConserves(s: System)
    requires Conserved(s)
    ensures Conserved(Step(s, Stop))
  {
    hide Flatten, Accepted;
  }

  /** In every run, what was attempted so far is a prefix of the accepted events, each exactly once; and when
      Stop returns, that prefix holds every event added before Stop. */
  lemma StopDrains(actions: seq<Action>)
    ensures var s := Run(Started(true), actions);
      && Flatten(s.attempts) <= Accepted(s.queue.added) && s.addedBeforeStop <= |s.queue.added|
      && (s.worker.Finished? ==> Accepted(s.queue.added[..s.addedBeforeStop]) <= Flatten(s.attempts))
  {
    RunConserves(true, actions);
    var s := Run(Started(true), actions);
    hide Flatten, Accepted, Run;
    var sent := Flatten(s.attempts);
    assert sent + InFlight(s) + s.queue.pending == Accepted(s.queue.added);
    assert sent == Accepted(s.queue.added)[..|sent|];
    AcceptedPrefix(s.queue.added, s.addedBeforeStop);
  }

  lemma {:induction false} AcceptedPrefix(events: seq<Event>, n: nat)
    requires n <= |events|
    ensures Accepted(events[..n]) <= Accepted(events)
  {
    if n < |events| {
      AcceptedPrefix(events[..|events| - 1], n);
      assert events[..|events| - 1][..n] == events[..n];
    } else {
      assert events[..n] == events;
    }
  }

  /** Without a usable URL nothing is ever attempted, so the batches taken are lost. */
  lemma BadUrlSendsNothing(actions: seq<Action>)
    ensures Run(Started(false), actions).attempts == []
  {
    RunConserves(false, actions);
  }

  // ---- What is accepted, and that it is sent ----

  /** Accepted are, in order, exactly the events whose timestamp has a year from 0 to 9999. */
  lemma {:induction false} AcceptedExactly(events: seq<Event>) returns (kept: seq<nat>)
    ensures |kept| == |Accepted(events)| && forall p, q :: 0 <= p < q < |kept| ==> kept[p] < kept[q]
    ensures forall p :: 0 <= p < |kept| ==> kept[p] < |events| && Accepted(events)[p] == events[kept[p]]
    ensures forall i :: 0 <= i < |events| ==> (i in kept <==> 0 <= events[i].year <= 9999)
  {
    hide Accepted;
    if events == [] {
      kept := [];
      NothingAccepted();
    } else {
      var front, last := events[..|events| - 1], events[|events| - 1];
      assert events == front + [last];
      AcceptedSnoc(front, last);
      kept := AcceptedExactly(front);
      assert forall i :: 0 <= i < |front| ==> events[i] == front[i];
      if 0 <= last.year <= 9999 {
        kept := kept + [|front|];
      }
    }
  }

  lemma NothingAccepted()
    ensures Accepted([]) == []
  {
  }

  lemma RunSnoc(s: System, actions: seq<Action>, a: Action)
    ensures Run(s, actions + [a]) == Step(Run(s, actions), a)
  {
    hide Step;
    assert (actions + [a])[..|actions|] == actions;
  }

  /** A tick that finds the worker waiting empties the queue: once its batch is out, every event accepted so far
      was attempted, in order, each once. */
  lemma TickSendsAll(actions: seq<Action>)
    requires Run(Started(true), actions).worker.Waiting?
    ensures var s := Run(Started(true), actions + [Tick, Send]);
            && s.worker.Waiting? && s.queue.pending == []
            && s.queue.added == Run(Started(true), actions).queue.added
            && Flatten(s.attempts) == Accepted(s.queue.added)
  {
    hide Run, Flatten, Accepted, AllEncodable;
    RunSnoc(Started(true), actions, Tick);
    RunSnoc(Started(true), actions + [Tick], Send);
    assert actions + [Tick] + [Send] == actions + [Tick, Send];
    RunConserves(true, actions);
    RunConserves(true, actions + [Tick]);
    RunConserves(true, actions + [Tick, Send]);
    var s := Run(Started(true), actions + [Tick, Send]);
    assert Flatten(s.attempts) + [] + [] == Flatten(s.attempts);
  }

  /** Once quit is closed, the worker comes to its end by its own steps alone, and nothing is left in the queue. */
  lemma StopCompletes(actions: seq<Action>)
    requires Run(Started(true), actions).quit && !Run(Started(true), actions).worker.Finished?
    ensures var s := Run(Started(true), actions + [Send, NoticeQuit, Send]);
            && s.worker.Finished? && s.addedBeforeStop <= |s.queue.added|
            && Accepted(s.queue.added[..s.addedBeforeStop]) <= Flatten(s.attempts)
  {
    hide Run, Flatten, Accepted, AllEncodable;
    RunSnoc(Started(true), actions, Send);
    RunSnoc(Started(true), actions + [Send], NoticeQuit);
    RunSnoc(Started(true), actions + [Send] + [NoticeQuit], Send);
    assert actions + [Send] + [NoticeQuit] + [Send] == actions + [Send, NoticeQuit, Send];
    RunConserves(true, actions);
    StopDrains(actions + [Send, NoticeQuit, Send]);
  }
}
