/** Day tournament: exactly when nine sure places in the first round fill the finals. */
module PvpPlaces {
  import opened PvpDay
  import opened PvpFights
  import opened PvpRounds
  import opened PvpField
  import opened PvpCourse
  import opened PvpQuiet
  import opened PvpDrain
  import opened PvpDoubles

  // ---------- from eighty-seven players on ----------

  lemma SurePlacesSuffice(fights: Fights, area: string, uuids: seq<string>, tickets: map<Player, int>)
    requires |uuids| >= FIELD - ROWS - 1 && RoundReady(Morning(tickets), Entrants(area, uuids))
    requires EnoughPairs(tickets, Entrants(area, uuids), 9)
    ensures |Rounds(Game(fights, TableRow()), Morning(tickets), Entrants(area, uuids), 0).1| > 8
  {
    if |uuids| == FIELD - ROWS - 1 {
      EightySevenSuffice(fights, area, uuids, tickets);
    } else {
      FewRobotsAreSafe(fights, area, uuids, tickets);
      FieldSuffices(Game(fights, TableRow()), Morning(tickets), Entrants(area, uuids));
    }
  }

  /** A day with at least eighty-seven players gives the finals their eight, whatever the fights bring, if and only if
      nine places of its first round are sure. */
  lemma LargeFieldsFillTheFinals(area: string, uuids: seq<string>, tickets: map<Player, int>)
    requires |uuids| >= FIELD - ROWS - 1 && RoundReady(Morning(tickets), Entrants(area, uuids))
    ensures (forall fights: Fights ::
               |Rounds(Game(fights, TableRow()), Morning(tickets), Entrants(area, uuids), 0).1| > 8)
            <==> EnoughPairs(tickets, Entrants(area, uuids), 9)
  {
    if EnoughPairs(tickets, Entrants(area, uuids), 9) {
      forall fights: Fights
        ensures |Rounds(Game(fights, TableRow()), Morning(tickets), Entrants(area, uuids), 0).1| > 8
      {
        SurePlacesSuffice(fights, area, uuids, tickets);
      }
    } else {
      FirstRoundIsSafe(area, uuids);
      FieldFails(TableRow(), Morning(tickets), Entrants(area, uuids));
    }
  }

  // ---------- up to eighty-six players ----------

  lemma {:induction false} LivePairsAtLeast(
    m: map<Player, int>, u1: seq<Player>, u2: seq<Player>, low: nat, high: nat)
    requires low <= high <= |u1| == |u2| && forall i :: low <= i < high ==> Held(m, u1[i]) > 0
    ensures LivePairs(m, u1, u2) >= high - low
    decreases |u1|
  {
    if low < high {
      var n := |u1| - 1;
      LivePairsAtLeast(m, u1[..n], u2[..n], low, if high <= n then high else n);
    }
  }

  function DrainTickets(area: string, uuids: seq<string>): map<Player, int> {
    Stored(Seated(area, uuids), PvpDrain.Purse0(), FIELD)
  }

  function DrainFights(): Fights {
    (n: nat, p: Player, q: Player) => true
  }

  lemma DrainHolds(area: string, uuids: seq<string>)
    requires Distinct(uuids)
    ensures Holds(DrainTickets(area, uuids), Seated(area, uuids), PvpDrain.Purse0())
  {
    var at := Seated(area, uuids);
    SeatedDiffer(area, uuids);
    forall i: nat ensures Held(DrainTickets(area, uuids), at(i)) == PvpDrain.Purse0()(i) {
      StoredAt(at, PvpDrain.Purse0(), FIELD, i);
    }
  }

  lemma DrainAt(area: string, uuids: seq<string>, i: nat)
    requires Distinct(uuids) && i < |Entrants(area, uuids)|
    ensures Held(DrainTickets(area, uuids), Players(Entrants(area, uuids))[i]) == PvpDrain.Purse0()(i)
  {
    DrainHolds(area, uuids);
    EntrantsSeated(area, uuids);
    assert Players(Entrants(area, uuids))[i] == Seated(area, uuids)(i);
  }

  lemma DrainIsReady(area: string, uuids: seq<string>)
    requires Distinct(uuids) && |uuids| < FIELD - ROWS - 1
    ensures RoundReady(Morning(DrainTickets(area, uuids)), Entrants(area, uuids))
  {
    var ps := Players(Entrants(area, uuids));
    forall p | p in ps ensures Held(DrainTickets(area, uuids), p) >= 0 {
      var i: nat :| i < |ps| && ps[i] == p;
      DrainAt(area, uuids, i);
    }
    MorningIsReady(area, uuids, DrainTickets(area, uuids));
  }

  lemma TenLivePairs(m: map<Player, int>, entries: seq<Entry>)
    requires |entries| == FIELD && forall i :: 34 <= i < 44 ==> Held(m, Players(entries)[2 * i]) > 0
    ensures EnoughPairs(m, entries, 9)
  {
    forall i: nat | 34 <= i < 44 ensures Held(m, Firsts(entries)[i]) > 0 {
      PairAt(entries, i);
    }
    LivePairsAtLeast(m, Firsts(entries), Seconds(entries), 34, 44);
  }

  lemma DrainPlaces(area: string, uuids: seq<string>)
    requires Distinct(uuids) && |uuids| < FIELD - ROWS - 1
    ensures EnoughPairs(DrainTickets(area, uuids), Entrants(area, uuids), 9)
  {
    forall i | 34 <= i < 44 ensures Held(DrainTickets(area, uuids), Players(Entrants(area, uuids))[2 * i]) > 0 {
      DrainAt(area, uuids, 2 * i);
      assert (2 * i) % 2 == 0;
    }
    TenLivePairs(DrainTickets(area, uuids), Entrants(area, uuids));
  }

  lemma DrainIsSet(area: string, uuids: seq<string>)
    requires Distinct(uuids) && |uuids| < FIELD - ROWS - 1
    ensures PvpDrain.Set(Game(DrainFights(), TableRow()), Seated(area, uuids))
  {
    var at := Seated(area, uuids);
    SeatedDiffer(area, uuids);
    SeatedNear(area, uuids);
    SeatedShare(area, uuids, 99, 86);
    SeatedShare(area, uuids, 86, 98);
    SeatedShare(area, uuids, 87, 99);
  }

  /** For every field with at most eighty-six players there are tickets that make ten places of the first round sure,
      and leave eight players when the first player always wins: the robots of places 86 and 98 meet, and those of
      87 and 99; the two left have empty purses, and knock each other out. */
  lemma SurePlacesAreNotEnough(area: string, uuids: seq<string>)
    requires Distinct(uuids) && |uuids| < FIELD - ROWS - 1
    ensures var day, entries := Morning(DrainTickets(area, uuids)), Entrants(area, uuids);
            && RoundReady(day, entries) && EnoughPairs(day.tickets, entries, 9)
            && |Rounds(Game(DrainFights(), TableRow()), day, entries, 0).1| == 8
  {
    DrainIsReady(area, uuids);
    DrainPlaces(area, uuids);
    DrainIsSet(area, uuids);
    DrainHolds(area, uuids);
    EntrantsSeated(area, uuids);
    EightAreLeft(Game(DrainFights(), TableRow()), Seated(area, uuids),
                 (Morning(DrainTickets(area, uuids)), Entrants(area, uuids)), 0);
  }

  // ---------- main result ----------

  /** Nine sure places fill the finals, whatever the fights bring and whatever tickets are stored, if and only if at
      least eighty-seven players enrolled. */
  lemma NineSurePlacesSuffice(area: string, uuids: seq<string>)
    requires Distinct(uuids)
    ensures (forall fights: Fights, tickets: map<Player, int> ::
               RoundReady(Morning(tickets), Entrants(area, uuids)) && EnoughPairs(tickets, Entrants(area, uuids), 9)
               ==> |Rounds(Game(fights, TableRow()), Morning(tickets), Entrants(area, uuids), 0).1| > 8)
            <==> |uuids| >= FIELD - ROWS - 1
  {
    if |uuids| >= FIELD - ROWS - 1 {
      forall fights: Fights, tickets: map<Player, int> |
        RoundReady(Morning(tickets), Entrants(area, uuids)) && EnoughPairs(tickets, Entrants(area, uuids), 9)
        ensures |Rounds(Game(fights, TableRow()), Morning(tickets), Entrants(area, uuids), 0).1| > 8
      {
        SurePlacesSuffice(fights, area, uuids, tickets);
      }
    } else {
      SurePlacesAreNotEnough(area, uuids);
    }
  }
}
