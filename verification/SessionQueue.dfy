/** The message queue of `pack/module/net/socket/queue.js`, and how `session.js` hands out one message at a time. */
module SessionQueue {
  import opened Wrappers

  /** Two arrays: messages leave `head` from `offset` on, and arrive on `tail`. */
  class Queue<T> {
    var tail: seq<T>
    var head: seq<T>
    var offset: nat

    predicate Valid()
      reads this
    {
      offset <= |head|
    }

    function Contents(): seq<T>
      requires Valid()
      reads this
    {
      head[offset..] + tail
    }

    constructor ()
      ensures Valid() && Contents() == []
    {
      tail, head, offset := [], [], 0;
    }

    method Shift() returns (item: Option<T>)
      requires Valid()
      modifies this
      ensures Valid()
      ensures item == if old(Contents()) == [] then None else Some(old(Contents())[0])
      ensures Contents() == if old(Contents()) == [] then [] else old(Contents())[1..]
    {
      if offset == |head| {
        head := tail;
        tail := [];
        offset := 0;
        if |head| == 0 {
          return None;
        }
      }
      item := Some(head[offset]);
      offset := offset + 1;
    }

    method Push(item: T)
      requires Valid()
      modifies this`tail
      ensures Valid() && Contents() == old(Contents()) + [item]
    {
      tail := tail + [item];
    }

    method GetLength() returns (n: int)
      requires Valid()
      ensures n == |Contents()|
    {
      n := |head| - offset + |tail|;
    }

    method First() returns (item: Option<T>)
      requires Valid()
      ensures item == if Contents() == [] then None else Some(Contents()[0])
    {
      if offset == |head| {
        return if |tail| > 0 then Some(tail[0]) else None;
      }
      return Some(head[offset]);
    }
  }

  // ---------- the session ----------

  /** A message from the client, or a reply to it. */
  datatype Event<T> = Message(message: T) | Reply

  /** What is queued, and the 'data' events emitted so far. */
  datatype Session<T> = Session(queue: seq<T>, emitted: seq<T>)

  function Step<T>(s: Session<T>, event: Event<T>): Session<T> {
    match event
    case Message(m) =>
      Session(s.queue + [m], if s.queue == [] then s.emitted + [m] else s.emitted)
    case Reply =>
      if |s.queue| <= 1 then Session([], s.emitted)
      else Session(s.queue[1..], s.emitted + [s.queue[1]])
  }

  function Run<T>(s: Session<T>, events: seq<Event<T>>): Session<T>
    decreases |events|
  {
    if events == [] then s else Run(Step(s, events[0]), events[1..])
  }

  class SessionHandler<T> {
    const queue: Queue<T>
    var emitted: seq<T>

    predicate Valid()
      reads this, queue
    {
      queue.Valid()
    }

    function Value(): Session<T>
      requires Valid()
      reads this, queue
    {
      Session(queue.Contents(), emitted)
    }

    constructor ()
      ensures Valid() && fresh(queue) && Value() == Session([], [])
    {
      queue := new Queue();
      emitted := [];
    }

    /** The 'message' listener of listenEvent. */
    method OnMessage(message: T)
      requires Valid()
      modifies this, queue
      ensures Valid() && Value() == Step(old(Value()), Message(message))
    {
      queue.Push(message);
      var length := queue.GetLength();
      if length == 1 {
        var first := queue.First();
        emitted := emitted + [first.value];
      }
    }

    /** Session.prototype.reply */
    method OnReply()
      requires Valid()
      modifies this, queue
      ensures Valid() && Value() == Step(old(Value()), Reply)
    {
      var _ := queue.Shift();
      var length := queue.GetLength();
      if length > 0 {
        var first := queue.First();
        emitted := emitted + [first.value];
      }
    }
  }

  // ---------- whole runs ----------

  function ArrivedBy<T>(event: Event<T>): seq<T> {
    if event.Message? then [event.message] else []
  }

  /** The messages that have arrived, in order. */
  function Arrived<T>(events: seq<Event<T>>): seq<T> {
    if events == [] then [] else ArrivedBy(events[0]) + Arrived(events[1..])
  }

  /** A reply answers a message when it finds one waiting. */
  function AnsweredBy<T>(s: Session<T>, event: Event<T>): nat {
    if event.Reply? && s.queue != [] then 1 else 0
  }

  function Answered<T>(s: Session<T>, events: seq<Event<T>>): nat
    decreases |events|
  {
    if events == [] then 0 else AnsweredBy(s, events[0]) + Answered(Step(s, events[0]), events[1..])
  }

  /** Of the messages in `log`, `done` are answered, the one after them is out, the others wait. */
  predicate InOrder<T(==)>(s: Session<T>, log: seq<T>, done: nat) {
    && done <= |log|
    && s.queue == log[done..]
    && s.emitted == if done < |log| then log[..done + 1] else log
  }

  lemma StepInOrder<T>(s: Session<T>, log: seq<T>, done: nat, event: Event<T>)
    requires InOrder(s, log, done)
    ensures InOrder(Step(s, event), log + ArrivedBy(event), done + AnsweredBy(s, event))
  {
    match event
    case Message(m) =>
      assert (log + [m])[done..] == log[done..] + [m];
      assert done < |log| ==> (log + [m])[..done + 1] == log[..done + 1];
    case Reply =>
      assert log + [] == log;
      if s.queue != [] {
        assert log[done..][1..] == log[done + 1..];
        if |s.queue| > 1 {
          assert log[..done + 2] == log[..done + 1] + [log[done + 1]];
        } else {
          assert log[..done + 1] == log;
        }
      }
  }

  lemma Associates<T>(a: seq<T>, b: seq<T>, c: seq<T>)
    ensures a + b + c == a + (b + c)
  {
  }

  /** Messages are handed out in the order they came, each once, and never more than one ahead of the replies. */
  lemma {:induction false} RunInOrder<T>(s: Session<T>, log: seq<T>, done: nat, events: seq<Event<T>>)
    requires InOrder(s, log, done)
    ensures InOrder(Run(s, events), log + Arrived(events), done + Answered(s, events))
    decreases |events|
  {
    if events == [] {
      assert log + [] == log;
    } else {
      var event := events[0];
      StepInOrder(s, log, done, event);
      RunInOrder(Step(s, event), log + ArrivedBy(event), done + AnsweredBy(s, event), events[1..]);
      Associates(log, ArrivedBy(event), Arrived(events[1..]));
    }
  }

  lemma InOrderFromStart<T>(events: seq<Event<T>>)
    ensures InOrder(Run(Session([], []), events), Arrived(events), Answered(Session([], []), events))
  {
    RunInOrder(Session([], []), [], 0, events);
    assert [] + Arrived(events) == Arrived(events);
  }
}
