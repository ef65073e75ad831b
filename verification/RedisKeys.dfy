/** `redisKeyGen` of `pack/module/utils.js`, and when two argument triples share a key. */
module RedisKeys {
  import opened Splitting

  /** `Const.REDIS_NAME` of `pack/module/const.js`. */
  const REDIS_NAME: map<string, nat> := map[
    "baseinfo" := 1, "roleinfo" := 2, "map" := 3, "player" := 4, "hero" := 5, "skill" := 6, "equip" := 7,
    "bag" := 8, "hang" := 9, "afk" := 10, "namePool" := 11, "mailID" := 12, "mailHead" := 13, "mailText" := 14,
    "globalMailPool" := 15, "mailPool" := 16, "mailGetList" := 17, "taskPool" := 18, "taskDonePool" := 19,
    "scheduleTask" := 20, "node" := 21
  ]

  function Digit(d: nat): (c: char)
    requires d < 10
    ensures '0' <= c <= '9'
  {
    '0' + d as char
  }

  function Decimal(n: nat): string {
    if n < 10 then [Digit(n)] else Decimal(n / 10) + [Digit(n % 10)]
  }

  /** The table's code for a name, or the argument itself. */
  function Code(arg: string): string {
    if arg in REDIS_NAME && REDIS_NAME[arg] != 0 then Decimal(REDIS_NAME[arg]) else arg
  }

  function RedisKeyGen(area: string, uuid: string, name: string): string {
    Code(area) + ":" + Code(uuid) + ":" + Code(name)
  }

  /** Two arguments that the table cannot tell apart: equal, or a name and its own numeral. */
  predicate Alias(x: string, y: string) {
    || x == y
    || (x in REDIS_NAME && y == Decimal(REDIS_NAME[x]))
    || (y in REDIS_NAME && x == Decimal(REDIS_NAME[y]))
  }

  lemma {:induction false} DecimalDigits(n: nat)
    ensures Decimal(n) != [] && '0' <= Decimal(n)[0] <= '9' && ':' !in Decimal(n)
    ensures n >= 10 ==> |Decimal(n)| > 1
  {
    if n >= 10 {
      DecimalDigits(n / 10);
    }
  }

  lemma {:induction false} DecimalInjective(m: nat, n: nat)
    requires Decimal(m) == Decimal(n)
    ensures m == n
  {
    DecimalDigits(m);
    DecimalDigits(n);
    var s := Decimal(m);
    if m < 10 {
      assert Digit(m) == s[0] == Digit(n);
    } else {
      assert s[..|s| - 1] == Decimal(m / 10) == Decimal(n / 10);
      assert Digit(m % 10) == s[|s| - 1] == Digit(n % 10);
      DecimalInjective(m / 10, n / 10);
    }
  }

  /** What a numeral says. */
  function Numeral(s: string): int {
    if s == [] then 0 else 10 * Numeral(s[..|s| - 1]) + (s[|s| - 1] as int - '0' as int)
  }

  lemma {:induction false} DecimalSays(n: nat)
    ensures Numeral(Decimal(n)) == n
  {
    if n >= 10 {
      DecimalSays(n / 10);
      assert Decimal(n)[..|Decimal(n)| - 1] == Decimal(n / 10);
    }
  }

  /** The inverse of the table. */
  function NameOf(code: nat): string {
    match code
    case 1 => "baseinfo" case 2 => "roleinfo" case 3 => "map" case 4 => "player" case 5 => "hero"
    case 6 => "skill" case 7 => "equip" case 8 => "bag" case 9 => "hang" case 10 => "afk"
    case 11 => "namePool" case 12 => "mailID" case 13 => "mailHead" case 14 => "mailText"
    case 15 => "globalMailPool" case 16 => "mailPool" case 17 => "mailGetList" case 18 => "taskPool"
    case 19 => "taskDonePool" case 20 => "scheduleTask" case _ => "node"
  }

  lemma NamesHaveDistinctCodes(x: string)
    requires x in REDIS_NAME
    ensures REDIS_NAME[x] != 0 && NameOf(REDIS_NAME[x]) == x
    ensures x != [] && !('0' <= x[0] <= '9')
  {
  }

  /** The table confuses exactly a name with its own numeral. */
  lemma CodesCollide(x: string, y: string)
    ensures Code(x) == Code(y) <==> Alias(x, y)
  {
    forall z | z in {x, y} && z in REDIS_NAME
      ensures REDIS_NAME[z] != 0 && NameOf(REDIS_NAME[z]) == z && !('0' <= z[0] <= '9')
      ensures Decimal(REDIS_NAME[z]) !in REDIS_NAME
    {
      NamesHaveDistinctCodes(z);
      NumeralIsNoName(REDIS_NAME[z]);
    }
    if x in REDIS_NAME && y in REDIS_NAME && Code(x) == Code(y) {
      DecimalInjective(REDIS_NAME[x], REDIS_NAME[y]);
    }
  }

  lemma NumeralIsNoName(n: nat)
    ensures Decimal(n) !in REDIS_NAME
  {
    DecimalDigits(n);
    if Decimal(n) in REDIS_NAME {
      NamesHaveDistinctCodes(Decimal(n));
    }
  }

  lemma CodeHasNoColon(x: string)
    requires ':' !in x
    ensures ':' !in Code(x)
  {
    if x in REDIS_NAME {
      DecimalDigits(REDIS_NAME[x]);
    }
  }

  /** A name is replaced by the numeral of its place in the table, counted from 1; anything else stays. */
  lemma CodeNumbersNames(x: string)
    ensures if x in REDIS_NAME then 1 <= Numeral(Code(x)) <= 21 && NameOf(Numeral(Code(x))) == x && ':' !in Code(x)
            else Code(x) == x && forall code :: 1 <= code <= 21 ==> NameOf(code) != x
  {
    if x in REDIS_NAME {
      NamesHaveDistinctCodes(x);
      DecimalSays(REDIS_NAME[x]);
      DecimalDigits(REDIS_NAME[x]);
    }
  }

  /** What is read off a key when area and name hold no colon: the area's code before the first one, the name's after
      the last one, and the uuid's between. */
  lemma KeyParts(a: string, u: string, n: string) returns (first: nat, last: nat)
    requires ':' !in a && ':' !in n
    ensures var key := RedisKeyGen(a, u, n);
            && first < last < |key| && key[first] == key[last] == ':'
            && ':' !in key[..first] && ':' !in key[last + 1..]
            && key[..first] == Code(a) && key[first + 1..last] == Code(u) && key[last + 1..] == Code(n)
  {
    CodeHasNoColon(a);
    CodeHasNoColon(n);
    first, last := |Code(a)|, |Code(a)| + 1 + |Code(u)|;
    JoinedParts(Code(a), Code(u), Code(n));
  }

  lemma JoinedParts(a: string, u: string, n: string)
    ensures var key, first, last := a + ":" + u + ":" + n, |a|, |a| + 1 + |u|;
            && key[first] == key[last] == ':'
            && key[..first] == a && key[first + 1..last] == u && key[last + 1..] == n
  {
  }

  /** With colon-free areas and names, and any uuids, two keys are equal exactly when
      the table cannot tell their components apart. */
  lemma KeysCollide(a: string, u: string, n: string, a': string, u': string, n': string)
    requires ':' !in a && ':' !in n && ':' !in a' && ':' !in n'
    ensures RedisKeyGen(a, u, n) == RedisKeyGen(a', u', n') <==> Alias(a, a') && Alias(u, u') && Alias(n, n')
  {
    CodesCollide(a, a');
    CodesCollide(u, u');
    CodesCollide(n, n');
    if RedisKeyGen(a, u, n) == RedisKeyGen(a', u', n') {
      CodeHasNoColon(a);
      CodeHasNoColon(n);
      CodeHasNoColon(a');
      CodeHasNoColon(n');
      SplitAtLast(Code(a) + ":" + Code(u), Code(n), Code(a') + ":" + Code(u'), Code(n'), ':');
      SplitAtFirst(Code(a), Code(u), Code(a'), Code(u'), ':');
    }
  }

  /** The personal keys the game writes: area and uuid are not table names, the name is one. */
  predicate Personal(a: string, u: string, n: string) {
    ':' !in a && a !in REDIS_NAME && u !in REDIS_NAME && n in REDIS_NAME
  }

  lemma PersonalKeysAreInjective(a: string, u: string, n: string, a': string, u': string, n': string)
    requires Personal(a, u, n) && Personal(a', u', n')
    requires RedisKeyGen(a, u, n) == RedisKeyGen(a', u', n')
    ensures a == a' && u == u' && n == n'
  {
    NamesHaveNoColon(n);
    NamesHaveNoColon(n');
    KeysCollide(a, u, n, a', u', n');
    CodesCollide(n, n');
    NumeralIsNoName(REDIS_NAME[n]);
    NumeralIsNoName(REDIS_NAME[n']);
  }

  lemma NamesHaveNoColon(x: string)
    requires x in REDIS_NAME
    ensures ':' !in x
  {
  }

  /** An area with a colon always shares its keys with a shorter area. */
  lemma ColonInAreaCollides(p: string, q: string, u: string, n: string)
    requires p !in REDIS_NAME
    ensures RedisKeyGen(p + ":" + q, u, n) == RedisKeyGen(p, q + ":" + Code(u), n)
    ensures p + ":" + q != p
  {
    assert ':' in p + ":" + q && ':' in q + ":" + Code(u);
    if p + ":" + q in REDIS_NAME {
      NamesHaveNoColon(p + ":" + q);
    }
    if q + ":" + Code(u) in REDIS_NAME {
      NamesHaveNoColon(q + ":" + Code(u));
    }
    assert (p + ":" + q) + ":" + Code(u) + ":" + Code(n) == p + ":" + (q + ":" + Code(u)) + ":" + Code(n);
  }
}
