/** How much a run of visits can pay, whatever its schedule. */
module AfkRuns {
  import opened Wrappers
  import opened Division
  import opened Afk

  /** Milliseconds per paid interval. */
  function Period(interval: int): int {
    1000 * interval
  }

  /** What an offline visit answers: the seconds of the absence, cut at 43200000 of them, and the gold and experience
      of the whole intervals in just that time. A clock that went back counts downwards. */
  lemma OfflineAnswer(row: Reward, node: Node, now: int) returns (seconds: int, n: int)
    requires row.offlineinterval > 0
    ensures Settle(row, node, Offline(now))
            == (Node(node.fightTime, node.victoryTime, now),
                Profit(Some(n * row.offlinegold), Some(n * row.offlineexp), Some(seconds)))
    ensures row.offlineinterval * n <= seconds < row.offlineinterval * n + row.offlineinterval
    ensures var away := now - node.proAfkTime;
            if away < 0 then 1000 * seconds - 1000 < away <= 1000 * seconds
            else if away < 43_200_000_000 then 1000 * seconds <= away < 1000 * seconds + 1000
            else seconds == 43_200_000
  {
    seconds := OffTime(node.proAfkTime, now);
    n := seconds / row.offlineinterval;
    QuotientBounds(seconds, row.offlineinterval);
  }

  /** What an online visit answers: gold and experience exactly for a win, and never a time. */
  lemma OnlineAnswer(row: Reward, node: Node, now: int, win: int)
    ensures var (next, answer) := Settle(row, node, Online(now, win));
            && answer.offTime.None? && (answer.gold.Some? <==> win == 1) && (answer.exp.Some? <==> win == 1)
            && (win == 1 ==> answer.gold.value == row.onlinegold && answer.exp.value == row.onlineexp)
            && next.proAfkTime == now && next.fightTime == node.fightTime + 1
            && next.victoryTime - node.victoryTime == if win == 1 then 1 else 0
  {
  }

  /** One absence is paid for whole periods only, and for no more than the cap allows. */
  lemma IntervalsBounds(interval: int, since: int, now: int)
    requires interval > 0 && since <= now
    ensures 0 <= Intervals(interval, since, now) <= AFK_MAX_TIME / interval
    ensures Period(interval) * Intervals(interval, since, now) <= now - since
    ensures Seconds(now - since) <= AFK_MAX_TIME
            ==> now - since < Period(interval) * Intervals(interval, since, now) + Period(interval)
  {
    var d, m := now - since, Period(interval);
    NestedDivision(d, 1000, interval);
    QuotientBounds(d, m);
    QuotientGrows(0, OffTime(since, now), interval);
    QuotientGrows(OffTime(since, now), AFK_MAX_TIME, interval);
    QuotientGrows(OffTime(since, now), Seconds(d), interval);
    Scale(m, Intervals(interval, since, now), d / m);
  }

  /** The paid periods of a run fit into the time that passed. */
  lemma {:induction false} PaidFits(interval: int, since: int, visits: seq<Visit>)
    requires interval > 0 && Rising(since, visits)
    ensures Paid(interval, since, visits) >= 0 && LastTime(since, visits) >= since
    ensures Period(interval) * Paid(interval, since, visits) <= LastTime(since, visits) - since
    decreases |visits|
  {
    if visits != [] {
      var now, m := visits[0].time, Period(interval);
      PaidFits(interval, now, visits[1..]);
      var here := if visits[0].Offline? then Intervals(interval, since, now) else 0;
      IntervalsBounds(interval, since, now);
      AddFits(m, here, Paid(interval, now, visits[1..]), now - since, LastTime(now, visits[1..]) - now);
    }
  }

  lemma AddFits(m: int, here: int, rest: int, gap: int, later: int)
    requires m * here <= gap && m * rest <= later
    ensures m * (here + rest) <= gap + later
  {
    assert m * (here + rest) == m * here + m * rest;
  }

  /** What `k` uncapped visits leave unpaid is less than a period each. */
  lemma {:induction false} UnpaidIsSmall(interval: int, since: int, visits: seq<Visit>)
    requires interval > 0 && Rising(since, visits) && Uncapped(since, visits)
    ensures var unpaid := LastTime(since, visits) - since - Period(interval) * Paid(interval, since, visits);
            0 <= unpaid <= (Period(interval) - 1) * |visits|
    decreases |visits|
  {
    if visits != [] {
      var now := visits[0].time;
      UnpaidIsSmall(interval, now, visits[1..]);
      IntervalsBounds(interval, since, now);
      AddUnpaid(Period(interval), Intervals(interval, since, now), Paid(interval, now, visits[1..]),
                now - since, LastTime(now, visits[1..]) - now, |visits| - 1);
    }
  }

  lemma AddUnpaid(m: int, here: int, rest: int, gap: int, later: int, k: int)
    requires m * here <= gap <= m * here + (m - 1)
    requires m * rest <= later <= m * rest + (m - 1) * k
    ensures m * (here + rest) <= gap + later <= m * (here + rest) + (m - 1) * (k + 1)
  {
    assert m * (here + rest) == m * here + m * rest && (m - 1) * (k + 1) == (m - 1) * k + (m - 1);
  }

  /** No schedule of offline and online visits pays for more than the whole periods of the time that passed. */
  lemma TotalGoldAtMost(row: Reward, node: Node, visits: seq<Visit>)
    requires row.offlineinterval > 0 && row.offlinegold >= 0 && Rising(node.proAfkTime, visits)
    ensures var elapsed := LastTime(node.proAfkTime, visits) - node.proAfkTime;
            Earned(row, node, visits, true).0 <= elapsed / Period(row.offlineinterval) * row.offlinegold
  {
    var since, m := node.proAfkTime, Period(row.offlineinterval);
    var elapsed, paid := LastTime(since, visits) - since, Paid(row.offlineinterval, since, visits);
    RunPays(row, node, visits);
    PaidFits(row.offlineinterval, since, visits);
    QuotientBounds(elapsed, m);
    CompareFactors(m, paid, elapsed / m, elapsed);
    MultiplyBoth(paid, elapsed / m, row.offlinegold);
  }

  lemma MultiplyBoth(x: int, y: int, z: int)
    requires x <= y && z >= 0
    ensures x * z <= y * z
  {
  }

  /** `k` offline visits that the cap does not cut lose less than `k` periods between them. */
  lemma TotalGoldAtLeast(row: Reward, node: Node, visits: seq<Visit>)
    requires row.offlineinterval > 0 && row.offlinegold >= 0 && visits != []
    requires Rising(node.proAfkTime, visits) && Uncapped(node.proAfkTime, visits)
    ensures var elapsed := LastTime(node.proAfkTime, visits) - node.proAfkTime;
            Earned(row, node, visits, true).0
            >= (elapsed / Period(row.offlineinterval) - (|visits| - 1)) * row.offlinegold
  {
    var since, m := node.proAfkTime, Period(row.offlineinterval);
    var elapsed, paid := LastTime(since, visits) - since, Paid(row.offlineinterval, since, visits);
    RunPays(row, node, visits);
    UnpaidIsSmall(row.offlineinterval, since, visits);
    PaidAtLeast(m, elapsed, paid, |visits|);
    MultiplyBoth(elapsed / m - (|visits| - 1), paid, row.offlinegold);
  }

  lemma PaidAtLeast(m: int, elapsed: int, paid: int, k: nat)
    requires m > 0 && k > 0 && elapsed <= m * paid + (m - 1) * k
    ensures elapsed / m - (k - 1) <= paid
  {
    QuotientBounds(elapsed, m);
    assert (m - 1) * k == m * k - k && m * (paid + k - 1) == m * paid + m * k - m;
    CompareFactors(m, elapsed / m, paid + k - 1, elapsed);
  }

  /** Every offline absence is shorter than a period. */
  predicate AllShort(interval: int, since: int, visits: seq<Visit>)
    decreases |visits|
  {
    visits == [] ||
    (&& (visits[0].Offline? ==> visits[0].time - since < Period(interval))
     && AllShort(interval, visits[0].time, visits[1..]))
  }

  /** Visits pay nothing at all, however long they go on, exactly when no absence reaches a period. */
  lemma {:induction false} ShortAbsencesPayNothing(interval: int, since: int, visits: seq<Visit>)
    requires 0 < interval <= AFK_MAX_TIME && Rising(since, visits)
    ensures Paid(interval, since, visits) == 0 <==> AllShort(interval, since, visits)
    decreases |visits|
  {
    if visits != [] {
      var now := visits[0].time;
      ShortAbsencesPayNothing(interval, now, visits[1..]);
      PaidFits(interval, now, visits[1..]);
      IntervalsBounds(interval, since, now);
      if now - since >= Period(interval) {
        NestedDivision(now - since, 1000, interval);
        QuotientGrows(Period(interval), now - since, 1000);
        QuotientIs(Period(interval), 1000, interval);
        QuotientGrows(interval, OffTime(since, now), interval);
        QuotientIs(interval, interval, 1);
      } else if Intervals(interval, since, now) > 0 {
        Scale(Period(interval), 1, Intervals(interval, since, now));
      }
    }
  }

  function Min(x: int, y: int): int {
    if x <= y then x else y
  }

  /** The whole periods of an absence, up to those that fit under the cap. */
  lemma IntervalsCapped(interval: int, since: int, now: int)
    requires interval > 0 && since <= now
    ensures Intervals(interval, since, now) == Min((now - since) / Period(interval), AFK_MAX_TIME / interval)
  {
    NestedDivision(now - since, 1000, interval);
    if Seconds(now - since) >= AFK_MAX_TIME {
      QuotientGrows(AFK_MAX_TIME, Seconds(now - since), interval);
    } else {
      QuotientGrows(Seconds(now - since), AFK_MAX_TIME, interval);
    }
  }

  /** Of two absences, what is left over may make up one more period. */
  lemma SumOfQuotients(m: int, x: int, y: int)
    requires m > 0
    ensures (x + y) / m == x / m + y / m + if x % m + y % m >= m then 1 else 0
  {
    var q := x / m + y / m;
    assert m * q == m * (x / m) + m * (y / m) && x + y == m * q + (x % m + y % m);
    assert m * (q + 1) == m * q + m;
    if x % m + y % m >= m {
      QuotientIs(x + y, m, q + 1);
    } else {
      QuotientIs(x + y, m, q);
    }
  }

  /** Settling halfway through an absence, in full. It pays more if and only if both halves reach a period and together
      hold more periods than the cap allows; it pays one interval less if and only if the left-overs of the halves make
      up a period that the cap still allows; and else it pays the same. */
  lemma SplittingPays(interval: int, since: int, between: int, now: int)
    requires interval > 0 && since <= between <= now
    ensures var m, most := Period(interval), AFK_MAX_TIME / interval;
            var a, b := (between - since) / m, (now - between) / m;
            var whole, parts := Intervals(interval, since, now),
                                Intervals(interval, since, between) + Intervals(interval, between, now);
            && (parts > whole <==> a >= 1 && b >= 1 && most >= 1 && a + b > most)
            && (parts < whole <==> (between - since) % m + (now - between) % m >= m && a + b < most)
            && parts >= whole - 1
            && (Seconds(now - since) <= AFK_MAX_TIME ==> parts <= whole)
  {
    IntervalsCapped(interval, since, between);
    IntervalsCapped(interval, between, now);
    IntervalsCapped(interval, since, now);
    SumOfQuotients(Period(interval), between - since, now - between);
    QuotientGrows(0, between - since, Period(interval));
    QuotientGrows(0, now - between, Period(interval));
    QuotientGrows(0, AFK_MAX_TIME, interval);
    NestedDivision(now - since, 1000, interval);
    if Seconds(now - since) <= AFK_MAX_TIME {
      QuotientGrows(Seconds(now - since), AFK_MAX_TIME, interval);
    }
  }
}
