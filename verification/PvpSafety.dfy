/** Day tournament: exactly when nobody who entered can be lost or doubled. */
module PvpSafety {
  import opened PvpDay
  import opened PvpMembers
  import opened PvpField
  import opened PvpCourse
  import opened PvpMeeting
  import opened PvpQuiet

  /** When two robots of one row meet, such as 1 and 13, the second takes both places, and the first has none. */
  lemma SecondTakesBothPlaces(game: Game, day: Day, remain: seq<Entry>, p1: Player, p2: Player)
    requires Shared(game.row, p1, p2)
    ensures Present(Fight(game, day, remain, p1, p2)) == Everyone(day, remain) + multiset{p2, p2}
  {
    FightAdds(game, day, remain, p1, p2);
  }

  /** This day's rounds leave everybody who entered in play or out, as often as he entered. */
  ghost predicate KeepsEverybody(fights: Fights, tickets: map<Player, int>, entries: seq<Entry>) {
    Present(Rounds(Game(fights, TableRow()), Morning(tickets), entries, 0)) == multiset(Players(entries))
  }

  lemma KeepsUnlessClash(fights: Fights, area: string, uuids: seq<string>, tickets: map<Player, int>)
    ensures KeepsEverybody(fights, tickets, Entrants(area, uuids))
            <==> !RunClashes(Game(fights, TableRow()), Morning(tickets), Entrants(area, uuids), 0)
  {
    RobotsListedOnce(area, uuids, tickets);
    RoundsKeepEverybody(Game(fights, TableRow()), Morning(tickets), Entrants(area, uuids), 0);
    assert Everyone(Morning(tickets), Entrants(area, uuids)) == multiset(Players(Entrants(area, uuids)));
  }

  /** Everybody who enrolled holds what enrolment asks for, and no robot owes tickets. */
  predicate Funded(tickets: map<Player, int>, ps: seq<Player>) {
    forall p :: p in ps ==> Held(tickets, p) >= if p.Person? then ENROL_TICKETS else 0
  }

  /** Every robot holds what a new one is given, as in a process that has not held a tournament yet. */
  predicate NewRobots(tickets: map<Player, int>, ps: seq<Player>) {
    forall p :: p in ps && p.Robot? ==> Held(tickets, p) == 100
  }

  lemma MeetingAt(area: string, uuids: seq<string>, i: nat)
    requires Distinct(uuids) && |uuids| < FIELD && i < FIELD
    ensures var p := Players(Entrants(area, uuids))[i];
            Held(MeetingTickets(area, uuids), p) == Purse0()(i) && (p.Robot? <==> i >= |uuids|)
  {
    SeatedDiffer(area, uuids);
    EntrantsSeated(area, uuids);
    StoredAt(Seated(area, uuids), Purse0(), FIELD, i);
    assert Players(Entrants(area, uuids))[i] == Seated(area, uuids)(i);
  }

  lemma MeetingIsFunded(area: string, uuids: seq<string>)
    requires Distinct(uuids) && |uuids| < FIELD
    ensures Funded(MeetingTickets(area, uuids), Players(Entrants(area, uuids)))
    ensures |uuids| >= 3 ==> NewRobots(MeetingTickets(area, uuids), Players(Entrants(area, uuids)))
  {
    var ps, m := Players(Entrants(area, uuids)), MeetingTickets(area, uuids);
    forall p | p in ps
      ensures Held(m, p) >= ENROL_TICKETS && (|uuids| >= 3 && p.Robot? ==> Held(m, p) == 100)
    {
      var i :| 0 <= i < |ps| && ps[i] == p;
      MeetingAt(area, uuids, i);
    }
  }

  lemma MeetingLoses(area: string, uuids: seq<string>)
    requires Distinct(uuids) && |uuids| < FIELD - ROWS
    ensures !KeepsEverybody(MeetingFights(area, uuids), MeetingTickets(area, uuids), Entrants(area, uuids))
  {
    RowsMeet(area, uuids);
    KeepsUnlessClash(MeetingFights(area, uuids), area, uuids, MeetingTickets(area, uuids));
  }

  /** Nobody is lost or doubled in a day's rounds, whatever the fights bring and whatever tickets are stored, if and
      only if so many players enrolled that the robots filling up are all of different rows. */
  lemma SafeFields(area: string, uuids: seq<string>)
    requires Distinct(uuids)
    ensures (forall fights: Fights, tickets: map<Player, int> ::
               Funded(tickets, Players(Entrants(area, uuids)))
               ==> KeepsEverybody(fights, tickets, Entrants(area, uuids)))
            <==> |uuids| >= FIELD - ROWS
  {
    var entries := Entrants(area, uuids);
    if |uuids| >= FIELD - ROWS {
      forall fights: Fights, tickets: map<Player, int> ensures KeepsEverybody(fights, tickets, entries) {
        FewRobotsAreSafe(fights, area, uuids, tickets);
        KeepsUnlessClash(fights, area, uuids, tickets);
      }
    } else {
      MeetingIsFunded(area, uuids);
      MeetingLoses(area, uuids);
    }
  }

  lemma NewRobotsStart(area: string, uuids: seq<string>, tickets: map<Player, int>)
    requires |uuids| <= 2 && NewRobots(tickets, Players(Entrants(area, uuids)))
    ensures Start(Seated(area, uuids), (Morning(tickets), Entrants(area, uuids)))
    ensures NearUnshared(Seated(area, uuids), TableRow())
  {
    var at, ps := Seated(area, uuids), Players(Entrants(area, uuids));
    EntrantsSeated(area, uuids);
    forall i: nat | 2 <= i < FIELD ensures Held(tickets, at(i)) == 100 {
      assert ps[i] == at(i) && ps[i] in ps;
    }
    SeatedNear(area, uuids);
  }

  /** With two players at most, new robots never lose anybody. */
  lemma FewPlayersAreSafe(fights: Fights, area: string, uuids: seq<string>, tickets: map<Player, int>)
    requires Distinct(uuids) && |uuids| <= 2 && NewRobots(tickets, Players(Entrants(area, uuids)))
    ensures KeepsEverybody(fights, tickets, Entrants(area, uuids))
  {
    SeatedDiffer(area, uuids);
    NewRobotsStart(area, uuids, tickets);
    QuietDay(Game(fights, TableRow()), Seated(area, uuids), (Morning(tickets), Entrants(area, uuids)), 0);
    KeepsUnlessClash(fights, area, uuids, tickets);
  }

  /** When every robot is new, a day is safe whatever the fights bring, and whatever the players hold, if and only if
      at most two or at least eighty-eight of them enrolled. */
  lemma SafeFieldsOfNewRobots(area: string, uuids: seq<string>)
    requires Distinct(uuids)
    ensures (forall fights: Fights, tickets: map<Player, int> ::
               Funded(tickets, Players(Entrants(area, uuids))) && NewRobots(tickets, Players(Entrants(area, uuids)))
               ==> KeepsEverybody(fights, tickets, Entrants(area, uuids)))
            <==> |uuids| <= 2 || |uuids| >= FIELD - ROWS
  {
    var entries := Entrants(area, uuids);
    if 2 < |uuids| < FIELD - ROWS {
      MeetingIsFunded(area, uuids);
      MeetingLoses(area, uuids);
    } else {
      forall fights: Fights, tickets: map<Player, int> | NewRobots(tickets, Players(entries))
        ensures KeepsEverybody(fights, tickets, entries)
      {
        if |uuids| <= 2 {
          FewPlayersAreSafe(fights, area, uuids, tickets);
        } else {
          FewRobotsAreSafe(fights, area, uuids, tickets);
          KeepsUnlessClash(fights, area, uuids, tickets);
        }
      }
    }
  }
}
