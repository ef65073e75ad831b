/** Enrolment for the day tournament (`enrollPvpDay`, `updateAreaTimeInGlobalInfo` in `pack/module/pvp/pvp_imp.js`). */
module PvpEnrolment {
  import opened PvpField

  const NUMS_LIMIT: int := 5000

  datatype Reply = Success | Refused | IsEnrolled

  /** `uuids` of an area's day, `nums` and `rewardPool`, the time it was last opened, and when each player enrolled. */
  datatype Book = Book(uuids: seq<string>, nums: int, rewardPool: int, updateTime: int, myTime: map<string, int>)

  function TimeOf(b: Book, uuid: string): int {
    if uuid in b.myTime then b.myTime[uuid] else 0
  }

  function Enrol(b: Book, uuid: string, ticketDay: int): (Book, Reply) {
    if TimeOf(b, uuid) >= b.updateTime then (b, IsEnrolled)
    else if ticketDay < ENROL_TICKETS || b.nums >= NUMS_LIMIT then (b, Refused)
    else
      var myTime := b.myTime[uuid := b.updateTime];
      (Book(b.uuids + [uuid], b.nums + 1, b.rewardPool + ticketDay, b.updateTime, myTime), Success)
  }

  class Office {
    var uuids: seq<string>
    var nums: int
    var rewardPool: int
    var updateTime: int
    var myTime: map<string, int>

    function Value(): Book
      reads this
    {
      Book(uuids, nums, rewardPool, updateTime, myTime)
    }

    /** enrollPvpDay */
    method EnrollPvpDay(uuid: string, ticketDay: int) returns (reply: Reply)
      modifies this
      ensures (Value(), reply) == Enrol(old(Value()), uuid, ticketDay)
    {
      reply := Success;
      if TimeOf(Value(), uuid) < updateTime {
        if ticketDay >= ENROL_TICKETS && nums < NUMS_LIMIT {
          uuids := uuids + [uuid];
          nums := nums + 1;
          rewardPool := rewardPool + ticketDay;
          myTime := myTime[uuid := updateTime];
        } else {
          reply := Refused;
        }
      } else {
        reply := IsEnrolled;
      }
    }

    /** updateAreaTimeInGlobalInfo: after a tournament the area opens again; its list stays. */
    method UpdateTime(now: int)
      modifies this`updateTime
      ensures Value() == old(Value()).(updateTime := now)
    {
      updateTime := now;
    }
  }

  // ---------- runs ----------

  datatype Event = Enrolling(uuid: string, ticketDay: int) | Reopening(now: int)

  function Step(b: Book, e: Event): Book {
    match e
    case Enrolling(uuid, ticketDay) => Enrol(b, uuid, ticketDay).0
    case Reopening(now) => b.(updateTime := now)
  }

  function Run(b: Book, events: seq<Event>): Book
    decreases |events|
  {
    if events == [] then b else Run(Step(b, events[0]), events[1..])
  }

  function Reopenings(events: seq<Event>): nat {
    if events == [] then 0 else (if events[0].Reopening? then 1 else 0) + Reopenings(events[1..])
  }

  function Listed(b: Book, uuid: string): nat {
    multiset(b.uuids)[uuid]
  }

  /** A player who may still enrol can be listed once more without a reopening, and once with each reopening. */
  lemma {:induction false} ListedOncePerOpening(b: Book, events: seq<Event>, uuid: string)
    ensures Listed(Run(b, events), uuid)
            <= Listed(b, uuid) + Reopenings(events) + if TimeOf(b, uuid) < b.updateTime then 1 else 0
    decreases |events|
  {
    if events != [] {
      ListedOncePerOpening(Step(b, events[0]), events[1..], uuid);
    }
  }

  /** A player is answered that he is enrolled, or accepted, or turned away. */
  lemma ReplyMeans(b: Book, uuid: string, ticketDay: int)
    ensures var reply := Enrol(b, uuid, ticketDay).1;
            && (reply == IsEnrolled <==> TimeOf(b, uuid) >= b.updateTime)
            && (reply == Success <==> TimeOf(b, uuid) < b.updateTime && ticketDay >= 10 && b.nums < 5000)
  {
  }

  /** The enrolments of a run that succeeded, with the tickets held. */
  function Accepted(b: Book, events: seq<Event>): seq<(string, int)>
    decreases |events|
  {
    if events == [] then []
    else
      var e := events[0];
      (if e.Enrolling? && Enrol(b, e.uuid, e.ticketDay).1 == Success then [(e.uuid, e.ticketDay)] else [])
      + Accepted(Step(b, e), events[1..])
  }

  function Uuids(entries: seq<(string, int)>): seq<string> {
    seq(|entries|, i requires 0 <= i < |entries| => entries[i].0)
  }

  function Tickets(entries: seq<(string, int)>): int {
    if entries == [] then 0 else entries[0].1 + Tickets(entries[1..])
  }

  /** When the area was last opened. */
  function OpenedAt(time: int, events: seq<Event>): int
    decreases |events|
  {
    if events == [] then time
    else OpenedAt(if events[0].Reopening? then events[0].now else time, events[1..])
  }

  /** The books over every run: the list grows by those accepted, in order; as many are counted; the pool grows by the
      tickets they held; and at 5000 nobody more is accepted. */
  lemma {:induction false} BooksAgree(b: Book, events: seq<Event>)
    ensures var after, accepted := Run(b, events), Accepted(b, events);
            && after.uuids == b.uuids + Uuids(accepted)
            && after.nums == b.nums + |accepted|
            && after.rewardPool == b.rewardPool + Tickets(accepted)
            && after.updateTime == OpenedAt(b.updateTime, events)
    decreases |events|
  {
    if events != [] {
      BooksAgree(Step(b, events[0]), events[1..]);
      TicketsNext(b, events);
    }
  }

  lemma TicketsNext(b: Book, events: seq<Event>)
    requires events != []
    ensures var e, later := events[0], Accepted(Step(b, events[0]), events[1..]);
            if e.Enrolling? && Enrol(b, e.uuid, e.ticketDay).1 == Success then
              Tickets(Accepted(b, events)) == e.ticketDay + Tickets(later)
              && Uuids(Accepted(b, events)) == [e.uuid] + Uuids(later)
              && |Accepted(b, events)| == 1 + |later|
            else Accepted(b, events) == later
  {
    var e, later := events[0], Accepted(Step(b, events[0]), events[1..]);
    if e.Enrolling? && Enrol(b, e.uuid, e.ticketDay).1 == Success {
      assert Accepted(b, events)[1..] == later;
    }
  }

  /** Who is accepted holds ten tickets, and no more than 5000 are. */
  lemma {:induction false} AcceptedFit(b: Book, events: seq<Event>)
    ensures var accepted := Accepted(b, events);
            && (forall i :: 0 <= i < |accepted| ==> accepted[i].1 >= 10)
            && (accepted != [] ==> Run(b, events).nums <= 5000)
    decreases |events|
  {
    if events != [] {
      AcceptedFit(Step(b, events[0]), events[1..]);
      BooksAgree(Step(b, events[0]), events[1..]);
    }
  }

  /** Once accepted, a player is answered that he is enrolled until the area opens at a later time. */
  lemma {:induction false} EnrolledUntilReopened(b: Book, uuid: string, ticketDay: int, events: seq<Event>)
    requires Enrol(b, uuid, ticketDay).1 == Success
    requires uuid !in Uuids(Accepted(Enrol(b, uuid, ticketDay).0, events))
    ensures var after := Run(Enrol(b, uuid, ticketDay).0, events);
            forall tickets :: Enrol(after, uuid, tickets).1 == IsEnrolled <==> after.updateTime <= b.updateTime
  {
    TimeStays(Enrol(b, uuid, ticketDay).0, uuid, events);
  }

  lemma {:induction false} TimeStays(b: Book, uuid: string, events: seq<Event>)
    requires uuid !in Uuids(Accepted(b, events))
    ensures TimeOf(Run(b, events), uuid) == TimeOf(b, uuid)
    decreases |events|
  {
    if events != [] {
      TicketsNext(b, events);
      TimeStays(Step(b, events[0]), uuid, events[1..]);
    }
  }

  /** Nobody is listed, and the area is open to all. */
  predicate New(b: Book) {
    b.uuids == [] && b.updateTime > 0 && b.myTime == map[] && b.nums < NUMS_LIMIT - 1
  }

  lemma {:induction false} OnceIsDistinct(uuids: seq<string>)
    requires forall u :: multiset(uuids)[u] <= 1
    ensures Distinct(uuids)
  {
    forall i, j | 0 <= i < j < |uuids| ensures uuids[i] != uuids[j] {
      assert uuids == uuids[..j] + uuids[j..];
      assert uuids[i] in uuids[..j] && uuids[j] in uuids[j..];
      assert multiset(uuids)[uuids[i]] <= 1;
    }
  }

  /** The area opens again and again. */
  function Openings(n: nat, time: int): (events: seq<Event>)
    ensures Reopenings(events) == n
  {
    if n == 0 then [] else [Reopening(time)] + Openings(n - 1, time)
  }

  lemma {:induction false} RunConcat(b: Book, a: seq<Event>, c: seq<Event>)
    ensures Run(b, a + c) == Run(Run(b, a), c)
    ensures Reopenings(a + c) == Reopenings(a) + Reopenings(c)
    decreases |a|
  {
    if a == [] {
      assert a + c == c;
    } else {
      assert (a + c)[1..] == a[1..] + c;
      RunConcat(Step(b, a[0]), a[1..], c);
    }
  }

  lemma {:induction false} RunOpenings(b: Book, n: nat, time: int)
    ensures Run(b, Openings(n, time)) == if n == 0 then b else b.(updateTime := time)
    decreases n
  {
    if n > 0 {
      assert Openings(n, time)[1..] == Openings(n - 1, time);
      RunOpenings(b.(updateTime := time), n - 1, time);
    }
  }

  /** With one reopening or more, a player who enrols at once and again at the end is listed twice. */
  lemma EnrolsTwice(b: Book, uuid: string, n: nat) returns (events: seq<Event>)
    requires New(b) && n > 0
    ensures Reopenings(events) == n && Run(b, events).uuids == [uuid, uuid]
  {
    var enrolling := [Enrolling(uuid, ENROL_TICKETS)];
    var later := Openings(n, b.updateTime + 1);
    events := enrolling + (later + enrolling);
    RunConcat(b, enrolling, later + enrolling);
    var b1 := Run(b, enrolling);
    assert b1 == Step(b, enrolling[0]);
    RunConcat(b1, later, enrolling);
    RunOpenings(b1, n, b.updateTime + 1);
    var b2 := b1.(updateTime := b.updateTime + 1);
    assert Run(b2, enrolling) == Step(b2, enrolling[0]);
  }

  /** Enrolment keeps the entrants distinct, however the players call it, if and only if the area is never opened
      again: then the list, which nothing clears, can hold a player a second time. */
  lemma DistinctWithoutReopening(b: Book, n: nat)
    requires New(b)
    ensures (forall events :: Reopenings(events) == n ==> Distinct(Run(b, events).uuids)) <==> n == 0
  {
    if n == 0 {
      forall events | Reopenings(events) == 0 ensures Distinct(Run(b, events).uuids) {
        forall u ensures multiset(Run(b, events).uuids)[u] <= 1 {
          ListedOncePerOpening(b, events, u);
          assert Listed(Run(b, events), u) <= 1;
        }
        OnceIsDistinct(Run(b, events).uuids);
      }
    } else {
      var events := EnrolsTwice(b, "1", n);
      assert Run(b, events).uuids[0] == Run(b, events).uuids[1];
    }
  }
}
