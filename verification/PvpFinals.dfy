/** The finals among eight players, and the final ranking, of `pack/module/pvp/pvp_imp.js`. */
module PvpFinals {
  import opened PvpDay

  /** Winners and losers of a stage, in the order of the fights, and how many fights there have been. */
  datatype Stage = Stage(win: seq<Player>, fail: seq<Player>, fought: nat)

  /** calFightF8: who goes on which list after one fight. */
  function Settled(fights: Fights, stage: Stage, p1: Player, p2: Player): Stage {
    var firstWins := fights(stage.fought, p1, p2);
    Stage(stage.win + [if firstWins then p1 else p2], stage.fail + [if firstWins then p2 else p1], stage.fought + 1)
  }

  /** One stage: the last of one list against the last of the other, until one list is empty. */
  function Battle(fights: Fights, u1: seq<Player>, u2: seq<Player>, stage: Stage): Stage
    decreases |u1|
  {
    if u1 == [] || u2 == [] then stage
    else
      Battle(fights, u1[..|u1| - 1], u2[..|u2| - 1], Settled(fights, stage, u1[|u1| - 1], u2[|u2| - 1]))
  }

  predicate Quad(stage: Stage) {
    |stage.win| == 4 && |stage.fail| == 4
  }

  predicate Met(stage: Stage, i: nat, p1: Player, p2: Player)
    requires i < |stage.win| == |stage.fail|
  {
    (stage.win[i] == p1 && stage.fail[i] == p2) || (stage.win[i] == p2 && stage.fail[i] == p1)
  }

  /** The n-th fight is between these two, and its winner and its loser are the i-th of the stage. */
  predicate Decided(fights: Fights, n: nat, stage: Stage, i: nat, p1: Player, p2: Player)
    requires i < |stage.win| == |stage.fail|
  {
    && stage.win[i] == (if fights(n, p1, p2) then p1 else p2)
    && stage.fail[i] == (if fights(n, p1, p2) then p2 else p1)
  }

  /** Of four pairs, the i-th from the end gives the i-th winner and the i-th loser. */
  predicate Paired(fights: Fights, n: nat, s: Stage, a: seq<Player>, b: seq<Player>)
    requires |a| == 4 && |b| == 4
  {
    && Quad(s) && s.fought == n + 4
    && Decided(fights, n, s, 0, a[3], b[3]) && Decided(fights, n + 1, s, 1, a[2], b[2])
    && Decided(fights, n + 2, s, 2, a[1], b[1]) && Decided(fights, n + 3, s, 3, a[0], b[0])
  }

  lemma FourPairs(fights: Fights, a: seq<Player>, b: seq<Player>, fought: nat)
    requires |a| == 4 && |b| == 4
    ensures Paired(fights, fought, Battle(fights, a, b, Stage([], [], fought)), a, b)
  {
    var s0 := Stage([], [], fought);
    var s1 := Settled(fights, s0, a[3], b[3]);
    var s2 := Settled(fights, s1, a[2], b[2]);
    var s3 := Settled(fights, s2, a[1], b[1]);
    assert a[..3][..2] == a[..2] && b[..3][..2] == b[..2] && a[..2][..1] == a[..1] && b[..2][..1] == b[..1];
    assert Battle(fights, a, b, s0) == Battle(fights, a[..3], b[..3], s1);
    assert Battle(fights, a[..3], b[..3], s1) == Battle(fights, a[..2], b[..2], s2);
    assert Battle(fights, a[..2], b[..2], s2) == Battle(fights, a[..1], b[..1], s3);
    assert Battle(fights, a[..1], b[..1], s3) == Settled(fights, s3, a[0], b[0]);
  }

  function FourFights(fights: Fights, a: seq<Player>, b: seq<Player>, fought: nat): (s: Stage)
    requires |a| == 4 && |b| == 4
    ensures Paired(fights, fought, s, a, b)
  {
    FourPairs(fights, a, b, fought);
    Battle(fights, a, b, Stage([], [], fought))
  }

  // ---------- the four stages ----------

  /** fight4: the eight, neighbour against neighbour. */
  function Stage8(fights: Fights, f8: seq<Player>, fought: nat): (s: Stage)
    requires |f8| == 8
    ensures Paired(fights, fought, s, [f8[0], f8[2], f8[4], f8[6]], [f8[1], f8[3], f8[5], f8[7]])
  {
    FourFights(fights, [f8[0], f8[2], f8[4], f8[6]], [f8[1], f8[3], f8[5], f8[7]], fought)
  }

  /** fight3: the winners against the losers, in reverse order. */
  function Stage4(fights: Fights, s: Stage): (s': Stage)
    requires Quad(s)
    ensures Paired(fights, s.fought, s', Left4(s), Right4(s))
  {
    FourFights(fights, Left4(s), Right4(s), s.fought)
  }

  function Left4(s: Stage): seq<Player>
    requires Quad(s)
  {
    [s.win[0], s.win[1], s.win[2], s.win[3]]
  }

  function Right4(s: Stage): seq<Player>
    requires Quad(s)
  {
    [s.fail[3], s.fail[2], s.fail[1], s.fail[0]]
  }

  /** fight2: winners among themselves, losers among themselves. */
  function Stage2(fights: Fights, s: Stage): (s': Stage)
    requires Quad(s)
    ensures Paired(fights, s.fought, s', Left2(s), Right2(s))
  {
    FourFights(fights, Left2(s), Right2(s), s.fought)
  }

  function Left2(s: Stage): seq<Player>
    requires Quad(s)
  {
    [s.win[0], s.win[1], s.fail[0], s.fail[1]]
  }

  function Right2(s: Stage): seq<Player>
    requires Quad(s)
  {
    [s.win[2], s.win[3], s.fail[2], s.fail[3]]
  }

  /** fight1: the final, and the three fights for the places below. */
  function Stage1(fights: Fights, s: Stage): (s': Stage)
    requires Quad(s)
    ensures Paired(fights, s.fought, s', Left1(s), Right1(s))
  {
    FourFights(fights, Left1(s), Right1(s), s.fought)
  }

  function Left1(s: Stage): seq<Player>
    requires Quad(s)
  {
    [s.win[0], s.fail[0], s.win[2], s.fail[2]]
  }

  function Right1(s: Stage): seq<Player>
    requires Quad(s)
  {
    [s.win[1], s.fail[1], s.win[3], s.fail[3]]
  }

  /** The ranking of the eight. */
  function Ranked(s: Stage): seq<Player>
    requires Quad(s)
  {
    [s.win[0], s.fail[0], s.win[1], s.fail[1], s.win[2], s.fail[2], s.win[3], s.fail[3]]
  }

  datatype Finals = Finals(s8: Stage, s4: Stage, s2: Stage, s1: Stage)

  /** Every stage is drawn up from the one before. */
  predicate Drawn(fights: Fights, f: Finals) {
    && Quad(f.s8)
    && Paired(fights, f.s8.fought, f.s4, Left4(f.s8), Right4(f.s8))
    && Paired(fights, f.s4.fought, f.s2, Left2(f.s4), Right2(f.s4))
    && Paired(fights, f.s2.fought, f.s1, Left1(f.s2), Right1(f.s2))
  }

  /** fightF8 */
  function Play(fights: Fights, f8: seq<Player>, fought: nat): (f: Finals)
    requires |f8| == 8
    ensures Drawn(fights, f) && Paired(fights, fought, f.s8, [f8[0], f8[2], f8[4], f8[6]], [f8[1], f8[3], f8[5], f8[7]])
  {
    var s8 := Stage8(fights, f8, fought);
    var s4 := Stage4(fights, s8);
    var s2 := Stage2(fights, s4);
    Finals(s8, s4, s2, Stage1(fights, s2))
  }

  function Final8(fights: Fights, f8: seq<Player>, fought: nat): seq<Player>
    requires |f8| == 8
  {
    Ranked(Play(fights, f8, fought).s1)
  }

  // ---------- nobody is lost ----------

  function One(x: Player, p: Player): nat {
    if x == p then 1 else 0
  }

  lemma Times4(a: seq<Player>, p: Player)
    requires |a| == 4
    ensures multiset(a)[p] == One(a[0], p) + One(a[1], p) + One(a[2], p) + One(a[3], p)
  {
    assert a == [a[0]] + [a[1]] + [a[2]] + [a[3]];
  }

  lemma Times8(a: seq<Player>, p: Player)
    requires |a| == 8
    ensures multiset(a)[p] == One(a[0], p) + One(a[1], p) + One(a[2], p) + One(a[3], p)
                              + One(a[4], p) + One(a[5], p) + One(a[6], p) + One(a[7], p)
  {
    Times4(a[..4], p);
    Times4(a[4..], p);
    assert a == a[..4] + a[4..];
  }

  /** How often `p` appears on the two lists of a stage. */
  function Times(s: Stage, p: Player): nat
    requires Quad(s)
  {
    var (w, l) := (s.win, s.fail);
    (One(w[0], p) + One(l[0], p)) + (One(w[1], p) + One(l[1], p))
    + (One(w[2], p) + One(l[2], p)) + (One(w[3], p) + One(l[3], p))
  }

  lemma MetTimes(s: Stage, i: nat, p1: Player, p2: Player, p: Player)
    requires i < |s.win| == |s.fail| && Met(s, i, p1, p2)
    ensures One(s.win[i], p) + One(s.fail[i], p) == One(p1, p) + One(p2, p)
  {
  }

  lemma PairedTimes(fights: Fights, s: Stage, a: seq<Player>, b: seq<Player>, p: Player)
    requires |a| == 4 && |b| == 4 && s.fought >= 4 && Paired(fights, s.fought - 4, s, a, b)
    ensures Times(s, p) == One(a[0], p) + One(a[1], p) + One(a[2], p) + One(a[3], p)
                           + One(b[0], p) + One(b[1], p) + One(b[2], p) + One(b[3], p)
  {
    MetTimes(s, 0, a[3], b[3], p);
    MetTimes(s, 1, a[2], b[2], p);
    MetTimes(s, 2, a[1], b[1], p);
    MetTimes(s, 3, a[0], b[0], p);
  }

  /** Everybody on the lists of the first stage is on the lists of every stage, as often. */
  lemma StagesKeepPlayer(fights: Fights, f: Finals, p: Player)
    requires Drawn(fights, f)
    ensures Times(f.s8, p) == Times(f.s4, p) == Times(f.s2, p) == Times(f.s1, p)
  {
    PairedTimes(fights, f.s4, Left4(f.s8), Right4(f.s8), p);
    PairedTimes(fights, f.s2, Left2(f.s4), Right2(f.s4), p);
    PairedTimes(fights, f.s1, Left1(f.s2), Right1(f.s2), p);
  }

  lemma WinFailTimes(s: Stage, p: Player)
    requires Quad(s)
    ensures multiset(s.win)[p] + multiset(s.fail)[p] == Times(s, p)
  {
    Times4(s.win, p);
    Times4(s.fail, p);
  }

  lemma LinedUpTimes(s: Stage, r: seq<Player>, p: Player)
    requires Quad(s) && |r| == 8
    requires r[0] == s.win[0] && r[1] == s.fail[0] && r[2] == s.win[1] && r[3] == s.fail[1]
    requires r[4] == s.win[2] && r[5] == s.fail[2] && r[6] == s.win[3] && r[7] == s.fail[3]
    ensures multiset(r)[p] == Times(s, p)
  {
    Times8(r, p);
  }

  lemma RankedTimes(s: Stage, p: Player)
    requires Quad(s)
    ensures multiset(Ranked(s))[p] == Times(s, p)
  {
    LinedUpTimes(s, Ranked(s), p);
  }

  lemma ListedTimes(s: Stage, p: Player)
    requires Quad(s)
    ensures multiset(s.win)[p] + multiset(s.fail)[p] == Times(s, p) == multiset(Ranked(s))[p]
  {
    WinFailTimes(s, p);
    RankedTimes(s, p);
  }

  lemma EntrantsFight(fights: Fights, f8: seq<Player>, fought: nat, p: Player)
    requires |f8| == 8
    ensures Times(Play(fights, f8, fought).s8, p) == multiset(f8)[p]
  {
    PairedTimes(fights, Play(fights, f8, fought).s8, [f8[0], f8[2], f8[4], f8[6]], [f8[1], f8[3], f8[5], f8[7]], p);
    Times8(f8, p);
  }

  /** The finals rank exactly the eight players that entered them. */
  lemma FinalsArePermutation(fights: Fights, f8: seq<Player>, fought: nat)
    requires |f8| == 8
    ensures multiset(Final8(fights, f8, fought)) == multiset(f8)
  {
    var f := Play(fights, f8, fought);
    forall p ensures multiset(Ranked(f.s1))[p] == multiset(f8)[p] {
      EntrantsFight(fights, f8, fought, p);
      StagesKeepPlayer(fights, f, p);
      ListedTimes(f.s1, p);
    }
  }

  /** All sixteen fights, in order: who meets whom, and that the winner of each is put with the winners. */
  lemma WhoMeetsWhom(fights: Fights, f8: seq<Player>, fought: nat)
    requires |f8| == 8
    ensures var f := Play(fights, f8, fought);
            && Drawn(fights, f) && Quad(f.s4) && Quad(f.s2) && Quad(f.s1)
            && (forall i :: 0 <= i < 4 ==> Decided(fights, fought + i, f.s8, i, f8[6 - 2 * i], f8[7 - 2 * i]))
            && (forall i :: 0 <= i < 4 ==>
                  Decided(fights, fought + 4 + i, f.s4, i, f.s8.win[3 - i], f.s8.fail[i]))
            && Decided(fights, fought + 8, f.s2, 0, f.s4.fail[1], f.s4.fail[3])
            && Decided(fights, fought + 9, f.s2, 1, f.s4.fail[0], f.s4.fail[2])
            && Decided(fights, fought + 10, f.s2, 2, f.s4.win[1], f.s4.win[3])
            && Decided(fights, fought + 11, f.s2, 3, f.s4.win[0], f.s4.win[2])
            && Decided(fights, fought + 12, f.s1, 0, f.s2.fail[2], f.s2.fail[3])
            && Decided(fights, fought + 13, f.s1, 1, f.s2.win[2], f.s2.win[3])
            && Decided(fights, fought + 14, f.s1, 2, f.s2.fail[0], f.s2.fail[1])
            && Decided(fights, fought + 15, f.s1, 3, f.s2.win[0], f.s2.win[1])
  {
    var f := Play(fights, f8, fought);
    FoursMeet(fights, fought + 4, f.s8, f.s4);
    TwosMeet(fights, fought + 8, f.s4, f.s2);
    OnesMeet(fights, fought + 12, f.s2, f.s1);
  }

  lemma FoursMeet(fights: Fights, n: nat, s: Stage, t: Stage)
    requires Quad(s) && Paired(fights, n, t, Left4(s), Right4(s))
    ensures forall i :: 0 <= i < 4 ==> Decided(fights, n + i, t, i, s.win[3 - i], s.fail[i])
  {
  }

  lemma TwosMeet(fights: Fights, n: nat, s: Stage, t: Stage)
    requires Quad(s) && Paired(fights, n, t, Left2(s), Right2(s))
    ensures Decided(fights, n, t, 0, s.fail[1], s.fail[3]) && Decided(fights, n + 1, t, 1, s.fail[0], s.fail[2])
    ensures Decided(fights, n + 2, t, 2, s.win[1], s.win[3]) && Decided(fights, n + 3, t, 3, s.win[0], s.win[2])
  {
  }

  lemma OnesMeet(fights: Fights, n: nat, s: Stage, t: Stage)
    requires Quad(s) && Paired(fights, n, t, Left1(s), Right1(s))
    ensures Decided(fights, n, t, 0, s.fail[2], s.fail[3]) && Decided(fights, n + 1, t, 1, s.win[2], s.win[3])
    ensures Decided(fights, n + 2, t, 2, s.fail[0], s.fail[1]) && Decided(fights, n + 3, t, 3, s.win[0], s.win[1])
  {
  }

  // ---------- what a rank says ----------

  /** Which of the last three stages a player won; he lost the others. */
  predicate Record(f: Finals, p: Player, won4: bool, won2: bool, won1: bool) {
    && p in (if won4 then f.s4.win else f.s4.fail)
    && p in (if won2 then f.s2.win else f.s2.fail)
    && p in (if won1 then f.s1.win else f.s1.fail)
  }

  /** What the holder of each rank has done in the last three stages. */
  predicate RecordsByRank(f: Finals, r: seq<Player>)
    requires |r| == 8
  {
    && Record(f, r[0], true, false, true) && Record(f, r[1], true, false, false)
    && Record(f, r[2], true, true, true) && Record(f, r[3], true, true, false)
    && Record(f, r[4], false, false, true) && Record(f, r[5], false, false, false)
    && Record(f, r[6], false, true, true) && Record(f, r[7], false, true, false)
  }

  lemma RanksShowRecords(fights: Fights, f: Finals)
    requires Drawn(fights, f)
    ensures RecordsByRank(f, Ranked(f.s1))
  {
  }

  predicate Different(f8: seq<Player>) {
    forall i, j :: 0 <= i < j < |f8| ==> f8[i] != f8[j]
  }

  lemma {:induction false} DifferentOnce(ps: seq<Player>, p: Player)
    requires Different(ps)
    ensures multiset(ps)[p] <= 1
  {
    if ps != [] {
      DifferentOnce(ps[1..], p);
      assert ps == [ps[0]] + ps[1..];
    }
  }

  /** Nobody both wins and loses in a stage. */
  lemma WinOrLose(s: Stage, p: Player)
    requires Quad(s) && Times(s, p) <= 1
    ensures !(p in s.win && p in s.fail)
  {
    ListedTimes(s, p);
  }

  lemma RecordIsUnique(fights: Fights, f8: seq<Player>, fought: nat, p: Player)
    requires |f8| == 8 && Different(f8)
    ensures var f := Play(fights, f8, fought);
            && !(p in f.s4.win && p in f.s4.fail) && !(p in f.s2.win && p in f.s2.fail)
            && !(p in f.s1.win && p in f.s1.fail)
  {
    var f := Play(fights, f8, fought);
    DifferentOnce(f8, p);
    EntrantsFight(fights, f8, fought, p);
    StagesKeepPlayer(fights, f, p);
    WinOrLose(f.s4, p);
    WinOrLose(f.s2, p);
    WinOrLose(f.s1, p);
  }

  /** A winner of the last stage is ranked first, third, fifth or seventh; only the third won the two before. */
  lemma UnbeatenRank(f: Finals, r: seq<Player>, p: Player)
    requires Quad(f.s1) && r == Ranked(f.s1) && RecordsByRank(f, r) && Record(f, p, true, true, true)
    requires !(p in f.s4.win && p in f.s4.fail) && !(p in f.s2.win && p in f.s2.fail)
    ensures p == r[2]
  {
    var i :| 0 <= i < 4 && f.s1.win[i] == p;
    assert r[2 * i] == p;
  }

  /** Whoever wins the last three stages, the final included, is ranked third; the player ranked first lost
      the stage before the last. */
  lemma UnbeatenIsThird(fights: Fights, f8: seq<Player>, fought: nat, p: Player)
    requires |f8| == 8 && Different(f8)
    ensures var f, r := Play(fights, f8, fought), Final8(fights, f8, fought);
            && RecordsByRank(f, r)
            && (Record(f, p, true, true, true) <==> p == r[2])
            && r[0] !in f.s2.win
  {
    var f, r := Play(fights, f8, fought), Final8(fights, f8, fought);
    RanksShowRecords(fights, f);
    RecordIsUnique(fights, f8, fought, r[0]);
    if Record(f, p, true, true, true) {
      RecordIsUnique(fights, f8, fought, p);
      UnbeatenRank(f, r, p);
    }
  }
}
