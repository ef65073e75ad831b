# Verified model of tinygame's stateful modules

A Dafny model of the parts of tinygame that hold state, loop and compute, with proofs about single calls and whole
runs.

- **Recency list** (`Lru`, `LruRuns`, `LruTimestamps`, `LruStrings`): the list of `{area, uuid}` objects that
  `lruSet`, `lruGet` and `lruRemove` splice, push and shift. The limit is a parameter.
- **Bag** (`Slots`, `Bag`, `BagRuns`, `BagContents`): stackable items, one-slot equipment, and the guard that recounts
  the free slots.
- **Bounded map** (`LimitMaps`) and **random choice** (`Sampling`): first-in first-out eviction, choice by weight, and
  sampling across several arrays.
- **Keys** (`RedisKeys`, `Splitting`, `LruStrings`): when two argument tuples share a key string.
- **Idle rewards** (`Afk`, `AfkRuns`, `Division`): capped, floored payouts over a schedule of visits.
- **Day tournament** (`PvpEnrolment`, `PvpField`, `PvpDay`, `PvpMembers`, `PvpFights`, `PvpRounds`, `PvpRepeats`,
  `PvpCourse`, `PvpMeeting`, `PvpQuiet`, `PvpSafety`, `PvpDoubles`, `PvpDrain`, `PvpPlaces`, `PvpFinals`,
  `PvpRanking`, `PvpArena`): enrolment, the field filled up with robots, elimination rounds for tickets, the finals of
  eight, and the final ranking, for every possible outcome of the fights.
- **Codec** (`Codec`, `CodecShapes`, `CodecRoundTrip`, `CodecExact`, `CodecLoops`): the schema-driven `serialize` and
  `unserialize`.
- **Session queue** (`SessionQueue`): the two-array queue, and the rule that hands out one client message at a time.

Each operation is a function on values; where the source changes objects, arrays and maps step by step, a class or a
method does the same and is proved equal to that function, and the properties are lemmas about the function. Where the
source asks an outside party (the random library, the fight engine), the model takes an arbitrary answer as a
parameter.

## What the proofs found

- `getItemNum` and `delItem` disagree only on a bag that stores a negative number
  (`BagRuns.DelSucceedsForWhatIsCounted`).
- The bag's guard refuses some additions that would fit. It over-reserves by at most one slot, and
  `BagRuns.RefusedThoughItFits` says exactly when that matters.
- Equipment with an empty id passes `addEquip` and then makes `getLeftRoom` answer 0. So runs keep bags well-formed if
  and only if the item table holds no equipment under the empty id (`BagRuns.GoodForever`); the shipped item table,
  `pack/module/config/pick/item.js`, has no row under the empty id at all.
- `userAreaKey` is ambiguous exactly when one area continues another past a bar
  (`LruStrings.StringsTrackWhenBarSafe`), and `redisKeyGen` cannot tell a table name from its own numeral
  (`RedisKeys.KeysCollide`).
- The rewards compare seconds with a constant written in milliseconds; the model keeps that. Visits shorter than one
  interval earn nothing however long they go on (`AfkRuns.ShortAbsencesPayNothing`). Settling in the middle of an
  absence pays more exactly when both halves reach a period and together hold more than the cap allows
  (`AfkRuns.SplittingPays`).
- In the finals, whoever wins the last three stages, the final among them, is ranked third, and rank one goes to the
  winner of the match for third place (`PvpFinals.UnbeatenIsThird`, and of the whole ranking
  `PvpRanking.RankingTellsRecords`). The players ranked behind the eight who still hold tickets are ranked upside down
  (`PvpRanking.MiddleIsUpsideDown`, `PvpRanking.RankingRisesInTheMiddle`).
- Robots are loaded into the rows of a table of twelve, and a loaded robot writes its name on its row
  (`getRobotPlayerInfo`, at lines 193-209 of `pack/module/robot/robot.js`). When two robots of one row meet, such as 1
  and 13, both are called by the second one's name: the first is lost, and the second has both places
  (`PvpSafety.SecondTakesBothPlaces`). A round loses and doubles nobody if and only if no pair of its list shares a
  row (`PvpMembers.RoundKeepsEverybody`), and so do all rounds (`PvpMembers.RoundsKeepEverybody`). Enrolled players
  are never lost or doubled (`PvpMembers.RoundsKeepPersons`).
- The first round of a day never pairs two robots of one row. Whatever tickets are stored, as robots may keep some
  from an earlier tournament of the same process, a day is safe in every case if and only if at least 88 players
  enrolled (`PvpSafety.SafeFields`). In a new process every robot holds 100 tickets; then a day is safe in every case
  if and only if at most 2 or at least 88 players enrolled (`PvpSafety.SafeFieldsOfNewRobots`).
- An area opens again after each tournament but its list of entrants is not cleared, so a player can be listed twice:
  enrolment keeps the list distinct if and only if the area is never opened again
  (`PvpEnrolment.DistinctWithoutReopening`). A player with tickets who meets himself makes or loses tickets, and
  nothing else does (`PvpRepeats.RoundConservesTickets`); he ends up in play and out at once
  (`PvpRepeats.AgainstHimself`).
- With exactly eight players left the code would start the finals without players. A place of the first round is sure
  when its pair holds tickets, or when somebody sits out. Whatever tickets are stored, nine sure places fill the
  finals in every case if and only if at least 87 players enrolled (`PvpPlaces.NineSurePlacesSuffice`): with fewer,
  two pairs of robots can share rows, and two robots with empty purses can stay in play and knock each other out
  (`PvpPlaces.SurePlacesAreNotEnough`). While no pair shares a row, nine sure places are exactly what is needed
  (`PvpRounds.FinalsGetTheirEight`); sixteen of a hundred entrants with tickets can make too few
  (`PvpField.SixteenAreNotEnough`).
- Who sits out an odd first round can reach the sort without tickets to sort by. `PvpRanking.RestShowsTickets` says
  exactly when that cannot happen.
- `unserialize` reads a bare list of structures up to the length of its first element, so such a list comes back only
  when it has as many elements as the structure has fields (`CodecExact.StructListRoundTrip`). No schema in
  `SerialProto` uses one.

## Assumptions

- Quantities and times are integers. Numbers beyond exact double precision are out of scope.
- The item and reward tables, and the codec's schemas, are arbitrary maps; a bare map or list stands alone in its
  schema.
- Map keys are not names inherited from `Object.prototype`; areas, uuids, ids and indices are strings. (A numeric id 0
  would be refused by `!id` as the empty string is.)
- The clock does not go backwards. The random library answers within the bounds it is given, without repeats when
  asked.
- An enrolled player's record carries his own name, and no enrolled uuid is a number below 200, which would make it a
  robot's. A tournament lists each robot once, as the code does; a robot that meets itself has then fought before, so
  its tickets come from the cache, one object twice. Stored tickets are whatever `getPvpInfo` answers, 100 for a new
  robot.

## Model

| member | source | states |
|---|---|---|
| `Lru.Data.constructor` | pack/module/lru.js:105-111 | a new list is empty and keeps its id |
| `Lru.IndexOf` | pack/module/lru.js:27-36 | answers the first entry with the same area and uuid, or a negative number exactly when there is none |
| `Lru.RemoveKey` | pack/module/lru.js:38-45 | removes the first matching entry; answers -1 on a miss and `undefined` otherwise |
| `Lru.WithoutAt` | pack/module/lru.js:39-41 | removal is the splice at the first matching position, for every list |
| `Lru.LruSet` | pack/module/lru.js:84-91 | moves the object passed in to the tail, drops the head beyond the limit, answers the key |
| `Lru.LruRemove` | pack/module/lru.js:93-95 | removes the key and answers nothing |
| `Lru.LruGet` | pack/module/lru.js:97-103 | a hit moves the key to the tail and answers it; a miss changes nothing and answers `undefined` |
| `LruRuns.RunKeepsValid` | pack/module/lru.js:84-103 | over every run no two entries match and the length stays within the limit: one shift always suffices |
| `LruRuns.StepKeepsIncluded` | pack/module/lru.js:84-103 | any call keeps the smaller cache a subsequence of the larger one, shorter by at most the difference of the limits |
| `LruRuns.Inclusion` | pack/module/lru.js:84-103 | the same over every run from any related caches, and every hit of the smaller cache is the same hit in the larger |
| `LruRuns.InclusionFromCreate` | pack/module/lru.js:84-111 | inclusion, length difference and hits for every run from two new caches |
| `LruRuns.WindowPushed` | pack/module/lru.js:84-91 | a new key goes behind the watched key, and evicts it exactly when it heads a full list |
| `LruRuns.RetentionFrom` | pack/module/lru.js:84-103 | over any continuation the entries behind the watched key are the keys touched since, until they are too many |
| `LruRuns.Retention` | pack/module/lru.js:84-103 | a touched key is still listed if and only if fewer than limit distinct keys have been touched since |
| `LruTimestamps.StepRefines` | pack/module/lru.js:84-103 | each call does to the list what a table of last-touch times that evicts its minimum does, with the same reply |
| `LruTimestamps.RunRefines` | pack/module/lru.js:84-103 | over every run the list holds the table's keys and latest objects in strictly rising touch order |
| `LruTimestamps.RefinesFromCreate` | pack/module/lru.js:84-111 | the same from a new list, together with the bound, distinctness and equal replies |
| `LruStrings.KeysIdentifyWhenBarSafe` | pack/module/utils.js:278-284 | `userAreaKey` tells keys apart as the list does if and only if no area continues another past a bar |
| `LruStrings.NestedKeysCollide` | pack/module/utils.js:278-284 | two nested areas always have two different keys with one string |
| `LruStrings.BarFreeIsSafe` | pack/module/utils.js:278-284 | areas without a bar meet that condition |
| `LruStrings.KeyParts` | pack/module/utils.js:278-284 | off a key whose area holds no bar the area is read before the first bar and the uuid behind it |
| `LruStrings.RenamedRun` | pack/module/lru.js:27-103 | the list on objects and the list on their strings evolve identically in every run when the strings identify keys |
| `LruStrings.StringsTrackWhenBarSafe` | pack/module/lru.js:27-103 | they do so in every run and for every limit if and only if no area continues another past a bar |
| `RedisKeys.CodesCollide` | pack/module/const.js:35-57 | two arguments get one code exactly when they are equal or one is a table name and the other its numeral |
| `RedisKeys.CodeNumbersNames` | pack/module/const.js:35-57 | a name is replaced by the numeral of its place in the table, from 1 to 21; anything else stays |
| `RedisKeys.KeyParts` | pack/module/utils.js:143-157 | off a key of colon-free area and name: the code of the area before the first colon, of the name after the last, of the uuid between |
| `RedisKeys.KeysCollide` | pack/module/utils.js:143-157 | for colon-free areas and names and any uuids, two keys are equal if and only if every component is an alias |
| `RedisKeys.PersonalKeysAreInjective` | pack/module/utils.js:143-157 | keys with a table name last, and no table name before it, determine their three components |
| `RedisKeys.ColonInAreaCollides` | pack/module/utils.js:143-157 | an area with a colon shares its keys with a shorter area |
| `Slots.CeilDivUnique` | pack/module/bag/bag.js:38 | `Math.ceil` of the quotient is the one number of stacks that holds the items and wastes less than a stack |
| `Slots.SlotsTaken` | pack/module/bag/bag.js:150 | adding to a stack takes a slot per started stack, less one exactly when the rest fits the last stack |
| `Bag.SlotSumRemove` | pack/module/bag/bag.js:22-40 | the sum over the item map does not depend on which entry is counted first |
| `Bag.Bag.GetLeftRoom` | pack/module/bag/bag.js:8-61 | for every order of visiting both maps: what is left of `max` in a well-formed bag, never below 0, and 0 for a malformed one |
| `Bag.Bag.Delete` | pack/module/bag/bag.js:90-127 | takes from the item, else from the equip; drops an entry that reaches 0; refuses negative or too large numbers |
| `Bag.Bag.TryAdd` | pack/module/bag/bag.js:129-157 | allows a positive number of a known item whose started stacks fit into the room left |
| `Bag.Bag.Add` | pack/module/bag/bag.js:159-175 | adds to the count or starts one when that is allowed, else changes nothing |
| `Bag.Bag.Equip` | pack/module/bag/bag.js:177-214 | stores a known equip under a free index when a slot is left, else changes nothing |
| `BagRuns.AdditionTakes` | pack/module/bag/bag.js:150-170 | the slots an addition takes, exactly: those asked for, less one when the last stack absorbs the rest |
| `BagRuns.AdditionTakesFloorOrCeiling` | pack/module/bag/bag.js:150-170 | so they are the floor or the ceiling of the quotient |
| `BagRuns.RefusedThoughItFits` | pack/module/bag/bag.js:129-157 | an addition that would fit is refused if and only if the guard over-reserves and just that slot is missing |
| `BagRuns.DeletionFrees` | pack/module/bag/bag.js:99-110 | a deletion of items frees the floor or the ceiling of the quotient, never less than nothing |
| `BagRuns.DeletingEquipFrees` | pack/module/bag/bag.js:112-123 | deleting equipment frees one slot exactly when nothing of it remains |
| `BagRuns.DelNeverLowersRoom` | pack/module/bag/bag.js:90-127 | no deletion lowers `getLeftRoom`, on any bag |
| `BagRuns.AddIsGuarded` | pack/module/bag/bag.js:144-175 | whatever the bag, an addition that succeeds found it well-formed and leaves it so, within `max` |
| `BagRuns.AddSucceeds` | pack/module/bag/bag.js:129-175 | an addition succeeds if and only if the bag is well-formed and a positive number of a stackable item fits into its free slots |
| `BagRuns.EquipSucceeds` | pack/module/bag/bag.js:177-214 | equipment goes in if and only if it is a known equip, its index is free and the well-formed bag has room |
| `BagRuns.EquipIsGuarded` | pack/module/bag/bag.js:197-211 | the same protection for equipment, and the bag stays well-formed exactly when the id is not empty |
| `BagRuns.RunKeepsSound` | pack/module/bag/bag.js:90-214 | over every run counts stay positive, ids known, and the slots used within `max` |
| `BagRuns.RunKeepsGood` | pack/module/bag/bag.js:8-214 | over every run a well-formed bag stays so when the table holds no equipment under the empty id |
| `BagRuns.EmptyEquipSpoils` | pack/module/bag/bag.js:177-214 | else equipment with that id goes into an empty bag and leaves it malformed, without room |
| `BagRuns.GoodForever` | pack/module/bag/bag.js:8-214 | every run keeps every well-formed bag so, with slots used and room left adding up to `max`, if and only if there is no such row |
| `BagRuns.FailureChangesNothing` | pack/module/bag/bag.js:90-214 | a call that answers false leaves the bag as it was |
| `BagRuns.StepBooks` | pack/module/bag/bag.js:90-214 | one call changes the count of an index by what it says if it succeeds, else not at all |
| `BagRuns.RunBooks` | pack/module/bag/bag.js:90-214 | over every run, on any bag, a count is the initial one plus successful additions minus successful deletions |
| `BagRuns.CountIsSeen` | pack/module/bag/bag.js:64-87 | `getItemNum` shows that count, for an index in one map only, exactly when it is not negative |
| `BagRuns.DelSucceedsForWhatIsCounted` | pack/module/bag/bag.js:64-127 | deletion takes any number from 0 to the one stored; that is what `getItemNum` covers if and only if no negative number is stored |
| `BagRuns.AddThenDelete` | pack/module/bag/bag.js:99-175 | deleting what was just added succeeds and restores the bag exactly |
| `BagRuns.EquipThenDelete` | pack/module/bag/bag.js:112-214 | the same for equipment if and only if no item hides its index and its number is not negative |
| `BagRuns.DeleteThenAdd` | pack/module/bag/bag.js:99-175 | putting deleted items back restores the bag unless no slot was free and the guard over-reserves |
| `BagContents.StepOnEquip` | pack/module/bag/bag.js:90-214 | at any index, one call puts in the equipment handed to it with all its properties, or takes from its number, or leaves it alone |
| `BagContents.StepOnItem` | pack/module/bag/bag.js:90-175 | at any id, one call adds to the number of the items, or takes from it, or leaves it alone |
| `BagContents.EquipStays` | pack/module/bag/bag.js:112-211 | over every run that never empties an index the equipment there keeps its id and properties; its number is lowered by what was taken |
| `BagContents.EquipHasAnOrigin` | pack/module/bag/bag.js:90-214 | a run leaves equipment at an index if and only if it lay there all the time or one call put it in for good |
| `BagContents.PutInStays` | pack/module/bag/bag.js:112-211 | then it is what that call was handed, less what was taken since |
| `BagContents.OriginIsLast` | pack/module/bag/bag.js:204-211 | no later call puts anything in at that index |
| `LimitMaps.LimitMap.constructor` | pack/module/utils.js:21-25 | an empty map, with limit 10 when none is given |
| `LimitMaps.LimitMap.Set` | pack/module/utils.js:27-37 | overwrites a known key in place; a new key evicts the oldest one at the limit |
| `LimitMaps.LimitMap.Get` | pack/module/utils.js:39-41 | answers the stored value or nothing |
| `LimitMaps.LimitMap.Reset` | pack/module/utils.js:43-47 | is as new |
| `LimitMaps.SetAgrees` | pack/module/utils.js:27-37 | one call keeps the queue the tail of the log of fresh insertions and the values those of the unbounded map |
| `LimitMaps.RunAgrees` | pack/module/utils.js:27-37 | the same over every run |
| `LimitMaps.AgreesFromCreate` | pack/module/utils.js:21-37 | from a new map and for every limit: no duplicates, the queue lists the domain, and the values are those of the unbounded map |
| `LimitMaps.NewestStay` | pack/module/utils.js:21-37 | a new map keeps the newest fresh keys: as many as a positive limit says, ten when none is given, one under a negative limit |
| `LimitMaps.Retention` | pack/module/utils.js:27-37 | a fresh key stays if and only if fewer than the capacity of fresh keys follow; overwriting does not prolong it |
| `Sampling.RandomScopeEx` | pack/module/utils.js:89-105 | the first index whose running total reaches what was drawn out of 1 to the sum, or -1 when none does |
| `Sampling.AnswerIsFirst` | pack/module/utils.js:89-105 | the answer is the first index whose running total reaches what was drawn out of 1 to the sum |
| `Sampling.OneDrawDecides` | pack/module/utils.js:97-104 | one draw alone decides: an index is answered exactly when what is drawn is one of its draws |
| `Sampling.SelectIsFirst` | pack/module/utils.js:98-104 | all totals before the chosen index are below the draw, and all of them when nothing is chosen |
| `Sampling.ProportionalWhenNonNegative` | pack/module/utils.js:89-105 | of the draws out of 1 to the sum every index is answered for exactly as many as its weight if and only if no weight is negative |
| `Sampling.NoChoice` | pack/module/utils.js:89-105 | -1 is answered exactly when every running total is negative |
| `Sampling.ChosenWeightIsPositive` | pack/module/utils.js:89-105 | a weight of 0 is chosen only when all weights are 0 |
| `Sampling.MeasureArrays` | pack/module/utils.js:109-113 | each array's interval of draws, and the total |
| `Sampling.ExactlyOneArray` | pack/module/utils.js:119-125 | each draw falls into exactly one array's interval, empty arrays included |
| `Sampling.FindDrawn` | pack/module/utils.js:119-125 | one draw pushes the element of the joined arrays at that position |
| `Sampling.RandomArraySets` | pack/module/utils.js:107-133 | as many elements as asked for, the i-th the joined arrays' element at the i-th number drawn; all of them when fewer are there |
| `Sampling.AnySampleIsDrawn` | pack/module/utils.js:116-125 | for every list of distinct positions some source gives just their elements, in that order |
| `Sampling.SampleIsSubMultiset` | pack/module/utils.js:107-133 | a sample has the size asked for, or all there is, and takes no element more often than it is there |
| `Sampling.SampleIsPermutation` | pack/module/utils.js:107-133 | it is a permutation of the joined arrays if and only if all of them were asked for |
| `Afk.CalOfflineProfit` | pack/module/afk/afk.js:99-146 | gold and experience per whole interval, and the time they are for |
| `Afk.CalOnlineProfit` | pack/module/afk/afk.js:148-206 | the gold and experience of one win; the time is left alone |
| `Afk.CalProfit` | pack/module/afk/afk.js:208-235 | the node and the answer after an online or an offline settlement, a lost online fight included |
| `Afk.RunPays` | pack/module/afk/afk.js:208-235 | over every run: fights and wins counted, the clock at the last visit, pay by interval offline and by win online |
| `AfkRuns.OfflineAnswer` | pack/module/afk/afk.js:99-145 | an offline visit answers the seconds of the absence, at most 43200000, and the pay of the whole intervals in just that time |
| `AfkRuns.OnlineAnswer` | pack/module/afk/afk.js:148-222 | an online visit answers gold and experience exactly for a win, and never a time |
| `AfkRuns.IntervalsBounds` | pack/module/afk/afk.js:108 | one absence pays whole periods only, within the time that passed and within the cap |
| `AfkRuns.PaidFits` | pack/module/afk/afk.js:220-234 | the paid periods of any run fit into the time that passed |
| `AfkRuns.TotalGoldAtMost` | pack/module/afk/afk.js:108-117 | no schedule pays more than the whole periods of the time that passed |
| `AfkRuns.TotalGoldAtLeast` | pack/module/afk/afk.js:108-117 | k uncapped offline visits lose less than k periods between them |
| `AfkRuns.ShortAbsencesPayNothing` | pack/module/afk/afk.js:220-234 | a run pays nothing offline if and only if no absence reaches one period |
| `AfkRuns.IntervalsCapped` | pack/module/afk/afk.js:108-234 | an absence pays its whole periods, up to those that fit under the cap |
| `AfkRuns.SplittingPays` | pack/module/afk/afk.js:220-234 | exactly when settling in the middle of an absence pays more, and when one interval less |
| `PvpEnrolment.Office.EnrollPvpDay` | pack/module/pvp/pvp_imp.js:305-335 | lists a player who has not enrolled since the last opening and holds enough, and notes the time |
| `PvpEnrolment.Office.UpdateTime` | pack/module/pvp/pvp_imp.js:844-858 | opens the area again, leaving the list as it is |
| `PvpEnrolment.ReplyMeans` | pack/module/pvp/pvp_imp.js:305-335 | who enrolled since the last opening is told so; anybody else with ten tickets is accepted while fewer than 5000 are counted |
| `PvpEnrolment.BooksAgree` | pack/module/pvp/pvp_imp.js:305-335 | over every run the list grows by those accepted, in order, as many are counted, and the pool grows by their tickets |
| `PvpEnrolment.AcceptedFit` | pack/module/pvp/pvp_imp.js:305-335 | over every run whoever is accepted holds ten tickets, and the count is then at most 5000 |
| `PvpEnrolment.EnrolledUntilReopened` | pack/module/pvp/pvp_imp.js:305-335 | once accepted a player is told that he is enrolled exactly until the area opens at a later time |
| `PvpEnrolment.ListedOncePerOpening` | pack/module/pvp/pvp_imp.js:305-335 | over every run a player is listed at most once per opening |
| `PvpEnrolment.DistinctWithoutReopening` | pack/module/pvp/pvp_imp.js:305-335 | every run keeps the entrants distinct if and only if it does not open the area again |
| `PvpArena.DrawUpField` | pack/module/pvp/pvp_imp.js:742-758 | the enrolled players, then robots 1, 2, ... up to one hundred entrants |
| `PvpField.EntrantAt` | pack/module/pvp/pvp_imp.js:742-758 | place by place: at least a hundred, the enrolled in front, robots from 1 on behind them, none with tickets to show |
| `PvpArena.MoveTickets` | pack/module/pvp/pvp_imp.js:610-637 | the tickets both sides hold after a fight; one object named twice keeps what it has |
| `PvpArena.Arena.InsertElt` | pack/module/pvp/pvp_imp.js:576-593 | splices a player in before the first who started with no more tickets |
| `PvpArena.InsertAt` | pack/module/pvp/pvp_imp.js:576-593 | the place where a player is spliced in: behind those who started with more, before everybody else |
| `PvpArena.Arena.LoadBoth` | pack/module/dataprocess/pvp_handle.js:599-662 | the names read after both records are loaded: that of the second robot twice when they share a row |
| `PvpArena.Arena.LoadPurses` | pack/module/dataprocess/pvp_handle.js:488-505 | the tickets of both players, one object for a robot that meets itself |
| `PvpArena.Arena.CalFightResult` | pack/module/pvp/pvp_imp.js:596-652 | moves the tickets, and places the two names in play or out |
| `PvpArena.Arena.FightOnce` | pack/module/pvp/pvp_imp.js:660-690 | one fight: records loaded, starting tickets noted, tickets moved, names placed, tickets saved |
| `PvpArena.Arena.Fight2Array` | pack/module/pvp/pvp_imp.js:654-698 | all pairs of a round, taken from the ends of the lists |
| `PvpArena.SplitField` | pack/module/pvp/pvp_imp.js:713-719 | deals the players to two lists in turn |
| `PvpArena.Arena.PlayRound` | pack/module/pvp/pvp_imp.js:709-738 | one round, with the odd player sitting out; the check for unequal lists never fails |
| `PvpArena.Arena.FightOne` | pack/module/pvp/pvp_imp.js:701-739 | rounds until ten are over or sixteen players are left |
| `PvpArena.PlayStage` | pack/module/pvp/pvp_imp.js:408-557 | one stage of the finals, by popping both lists |
| `PvpArena.FightF8` | pack/module/pvp/pvp_imp.js:408-573 | the four stages of the finals and the order of the eight |
| `PvpArena.DrawFinals` | pack/module/pvp/pvp_imp.js:780-788 | the first eight go to the finals, the others are spliced in before those out |
| `PvpArena.FinishDay` | pack/module/pvp/pvp_imp.js:769-807 | the final ranking, or none when eight or fewer are left |
| `PvpMembers.RoundAdds` | pack/module/pvp/pvp_imp.js:654-739 | one round of any list: the first players of pairs that share a record are lost, the second doubled, nobody else |
| `PvpMembers.RoundKeepsEverybody` | pack/module/pvp/pvp_imp.js:654-739 | a round of a list with each robot once loses and doubles nobody if and only if no pair shares a record |
| `PvpMembers.RoundsKeepEverybody` | pack/module/pvp/pvp_imp.js:654-739 | the same over all rounds: if and only if no round that is fought has such a pair |
| `PvpMembers.RoundsKeepPersons` | pack/module/pvp/pvp_imp.js:654-739 | every enrolled player is in play or out as often as he is listed, whatever records are shared |
| `PvpField.MorningIsReady` | pack/module/pvp/pvp_imp.js:742-758 | the field lists nobody twice and nobody in debt exactly when the enrolled uuids are distinct and nobody owes |
| `PvpField.FirstRoundIsSafe` | pack/module/pvp/pvp_imp.js:713-719 | the first round of any field pairs no two robots of one row |
| `PvpField.FewRobotsAreSafe` | pack/module/pvp/pvp_imp.js:742-798 | with 88 or more enrolled players no round ever pairs two robots of one row |
| `PvpPlaces.LargeFieldsFillTheFinals` | pack/module/pvp/pvp_imp.js:701-788 | with 87 or more enrolled players the finals fill up in every case if and only if nine places of the first round are sure |
| `PvpPlaces.SurePlacesAreNotEnough` | pack/module/pvp/pvp_imp.js:654-788 | for every field with at most 86 players, tickets and fights that make ten places sure and leave eight players |
| `PvpPlaces.NineSurePlacesSuffice` | pack/module/pvp/pvp_imp.js:701-788 | nine sure places fill the finals, whatever the tickets and fights, if and only if at least 87 players enrolled |
| `PvpField.SixteenAreNotEnough` | pack/module/pvp/pvp_imp.js:701-788 | a hundred entrants of whom sixteen hold tickets, and fights that leave no nine |
| `PvpSafety.SecondTakesBothPlaces` | pack/module/pvp/pvp_imp.js:640-651 | when two robots of one row meet, such as 1 and 13, the second is placed twice and the first not at all, whoever wins |
| `PvpCourse.CourseRound` | pack/module/pvp/pvp_imp.js:701-739 | what a round does to a list of places when its fights and tickets are known |
| `PvpMeeting.RowsMeet` | pack/module/pvp/pvp_imp.js:654-739 | for every field with fewer than 88 players, tickets and fights that bring two robots of one row together |
| `PvpQuiet.QuietDay` | pack/module/pvp/pvp_imp.js:654-739 | when all entrants but two hold the same, only neighbours less than twelve places apart ever meet, and three rounds leave sixteen |
| `PvpSafety.SafeFields` | pack/module/pvp/pvp_imp.js:742-798 | whatever tickets are stored, a day loses and doubles nobody in any case if and only if at least 88 players enrolled |
| `PvpSafety.SafeFieldsOfNewRobots` | pack/module/dataprocess/pvp_handle.js:488-496 | when every robot still holds its first 100 tickets, a day is safe in any case if and only if at most 2 or at least 88 players enrolled |
| `PvpFights.FightConserves` | pack/module/pvp/pvp_imp.js:610-637 | a fight moves tickets between its two players and conserves their total |
| `PvpFights.WinnerTakes` | pack/module/pvp/pvp_imp.js:610-651 | the winner takes as many tickets as the poorer side holds; who has some left is seated, the first player before the second |
| `PvpFights.FightKeeps` | pack/module/pvp/pvp_imp.js:596-652 | whoever is out has none and is ranked by starting tickets; whoever stays has what his entry says |
| `PvpFights.FightLeaves` | pack/module/pvp/pvp_imp.js:640-651 | of a pair that holds tickets at least one side goes on |
| `PvpFights.PairsKeep` | pack/module/pvp/pvp_imp.js:654-698 | the pairs of a round, when none shares a record, keep those out and those in play in order |
| `PvpFights.PairsLeave` | pack/module/pvp/pvp_imp.js:654-698 | whatever records are shared, a place for every pair that holds tickets |
| `PvpRepeats.AgainstHimself` | pack/module/pvp/pvp_imp.js:596-690 | a player who meets himself is in play with twice his tickets, and out, and all or none of it is stored |
| `PvpRepeats.RoundConservesTickets` | pack/module/pvp/pvp_imp.js:654-739 | a round conserves tickets in every case if and only if nobody but a robot meets himself holding any |
| `PvpRepeats.RoundsConserveTickets` | pack/module/pvp/pvp_imp.js:654-739 | over all rounds tickets are conserved when no player is listed twice, even when robots share records |
| `PvpRounds.RoundKeeps` | pack/module/pvp/pvp_imp.js:701-739 | one round: those out in order, those in play with the tickets their entries say, the odd player last and unchanged |
| `PvpRounds.NeighboursMeet` | pack/module/pvp/pvp_imp.js:654-738 | in a round neighbours meet, from the end of the list on; the first of an odd list sits out and comes last |
| `PvpRounds.RoundsEnd` | pack/module/pvp/pvp_imp.js:701-739 | the preliminaries end after the first round that leaves sixteen or fewer, and after ten at the latest |
| `PvpRounds.RoundsStayReady` | pack/module/pvp/pvp_imp.js:701-739 | over all rounds without a shared record those out hold nothing and are ranked, and nobody owes or is listed twice |
| `PvpRounds.RicherRound` | pack/module/pvp/pvp_imp.js:654-739 | when the richer player always wins a round leaves one of each pair that holds tickets, and who sat out |
| `PvpRounds.FinalsGetTheirEight` | pack/module/pvp/pvp_imp.js:701-788 | while no pair shares a record the finals fill up in every case if and only if nine places of the first round are sure |
| `PvpDoubles.RoundInPhase` | pack/module/pvp/pvp_imp.js:654-739 | when only two robots share a row, at most one entry has an empty purse, and every pair leaves somebody |
| `PvpDoubles.EightySevenSuffice` | pack/module/pvp/pvp_imp.js:701-788 | so nine sure places are enough with 87 players, although robots 1 and 13 may meet |
| `PvpDrain.EightAreLeft` | pack/module/pvp/pvp_imp.js:654-739 | four rounds in which the robots of places 86 and 98, and of 87 and 99, share rows and meet: eight are left |
| `PvpFinals.FourPairs` | pack/module/pvp/pvp_imp.js:387-406 | the i-th winner and loser of a stage are those of the i-th pair from the end, as that fight was decided |
| `PvpFinals.WhoMeetsWhom` | pack/module/pvp/pvp_imp.js:408-557 | all sixteen fights of the finals: who meets whom, in which order, and where winner and loser go |
| `PvpFinals.FinalsArePermutation` | pack/module/pvp/pvp_imp.js:408-573 | the finals rank exactly the eight players that entered them |
| `PvpFinals.RanksShowRecords` | pack/module/pvp/pvp_imp.js:408-523 | each rank tells how its holder fared in the last three stages |
| `PvpFinals.UnbeatenIsThird` | pack/module/pvp/pvp_imp.js:408-573 | the winner of the last three stages is always ranked third, and the player ranked first lost one of them |
| `PvpRanking.FinalSortRanks` | pack/module/pvp/pvp_imp.js:780-807 | with more than eight left the ranking holds everybody who is in play or out, those out last |
| `PvpRanking.RankingWithMoreThanEight` | pack/module/pvp/pvp_imp.js:769-807 | there is a ranking if and only if more than eight are left |
| `PvpRanking.RankingTellsRecords` | pack/module/pvp/pvp_imp.js:780-807 | the first eight places of the ranking are the first eight sorted, with the records of ranks 1 to 8; the third won all of the last three stages |
| `PvpRanking.RankingRisesInTheMiddle` | pack/module/pvp/pvp_imp.js:776-807 | the next places of the ranking are the others left, the last sorted first, by rising tickets |
| `PvpRanking.RoundsNote` | pack/module/pvp/pvp_imp.js:660-690 | over all rounds of any list everybody who fought is noted with the tickets of the morning, whatever records are shared |
| `PvpRanking.OutByFirstTickets` | pack/module/pvp/pvp_imp.js:576-652 | so those out are ranked by what they held in the morning, while no pair shares a record |
| `PvpRanking.RestIsInPlay` | pack/module/pvp/pvp_imp.js:701-778 | exactly when, in every case without a shared record, all who are left have fought and their entries say what they hold |
| `PvpRanking.RestShowsTickets` | pack/module/pvp/pvp_imp.js:701-778 | exactly when, in every case, all who are left show tickets to sort by |
| `PvpRanking.DayRanksEntrants` | pack/module/pvp/pvp_imp.js:742-807 | the ranking lists the entrants if and only if no round paired robots of one record; enrolled players always |
| `PvpRanking.DayRanksEverybody` | pack/module/pvp/pvp_imp.js:742-807 | a day with distinct entrants, nine sure places and no shared record ranks each once, those out last by the tickets of the morning, and conserves tickets |
| `PvpRanking.MiddleIsUpsideDown` | pack/module/pvp/pvp_imp.js:776-788 | the players between the eight and those out are ranked by rising tickets, so by falling ones only when all are equal |
| `CodecLoops.SerializeObject` | pack/module/dataprocess/serialize/serialize.js:79-154 | the loop over the schema builds the array, or throws where a text field is missing or a schema is unknown |
| `CodecLoops.SerializeProps` | pack/module/dataprocess/serialize/serialize.js:99-117 | the loop over a map serializes each value, in any order of the keys |
| `CodecLoops.SerializeItems` | pack/module/dataprocess/serialize/serialize.js:128-142 | the loop over a list serializes each element in order |
| `CodecLoops.UnserializeObject` | pack/module/dataprocess/serialize/serialize.js:13-76 | the loop over the schema fills the object from the array |
| `CodecLoops.UnserializeProps` | pack/module/dataprocess/serialize/serialize.js:27-43 | the loop over a map unserializes each value, in any order of the keys |
| `CodecLoops.UnserializeItems` | pack/module/dataprocess/serialize/serialize.js:52-55 | the loop over a list unserializes each element in order |
| `CodecShapes.SerializeAccepts` | pack/module/dataprocess/serialize/serialize.js:3-154 | `serialize` throws unless the schema is known, records are objects with their text fields, and maps and lists are missing or hold accepted values |
| `CodecShapes.SerializeSends` | pack/module/dataprocess/serialize/serialize.js:79-154 | what is sent for an accepted value: an array by fields, an object for every map of structures, an array for every list, empty when missing |
| `CodecShapes.UnserializeReads` | pack/module/dataprocess/serialize/serialize.js:13-76 | `unserialize` throws unless records are arrays, maps are missing or hold readable values, and lists are there |
| `CodecShapes.UnserializeGets` | pack/module/dataprocess/serialize/serialize.js:13-76 | what comes back: the names of the schema, each with what stands at the place of the last field of that name |
| `CodecRoundTrip.RoundTrip` | pack/module/dataprocess/serialize/serialize.js:13-154 | whatever `serialize` accepts comes back as its declared part, with missing maps and lists empty |
| `CodecExact.UnchangedIsDeclared` | pack/module/dataprocess/serialize/serialize.js:79-154 | that part is the value itself exactly for values that the schema declares at every level |
| `CodecExact.RoundTripIsIdentity` | pack/module/dataprocess/serialize/serialize.js:13-154 | a value survives the round trip unchanged if and only if it is what the schema declares |
| `CodecExact.StructListRoundTrip` | pack/module/dataprocess/serialize/serialize.js:58-65 | a bare list of records comes back if and only if it has as many elements as a record has fields |
| `SessionQueue.Queue.Shift` | pack/module/net/socket/queue.js:9-21 | takes the oldest message, swapping the two arrays when the first is used up |
| `SessionQueue.Queue.Push` | pack/module/net/socket/queue.js:23-25 | appends a message |
| `SessionQueue.Queue.GetLength` | pack/module/net/socket/queue.js:27-29 | the number of messages waiting in both arrays |
| `SessionQueue.Queue.First` | pack/module/net/socket/queue.js:31-36 | the oldest message, without taking it |
| `SessionQueue.SessionHandler.OnMessage` | pack/module/net/socket/session.js:108-114 | a message that finds the queue empty is handed out at once |
| `SessionQueue.SessionHandler.OnReply` | pack/module/net/socket/session.js:186-192 | a reply retires the oldest message and hands out the next |
| `SessionQueue.StepInOrder` | pack/module/net/socket/session.js:108-194 | each event keeps: answered messages, the one handed out, and those waiting are the arrivals in order |
| `SessionQueue.RunInOrder` | pack/module/net/socket/session.js:108-194 | over every run messages are handed out in order, each once, never more than one ahead of the replies |
| `SessionQueue.InOrderFromStart` | pack/module/net/socket/session.js:108-194 | so it is for every run of a new session |

## Left out

- Configuration tables under `pack/module/config`: data; the model quantifies over all tables.
- Sockets, HTTP, RPC, process wiring and logging: no state worth proving without the callbacks they call.
- The Lua fight engine, Redis and MySQL: a fight's winner and the stored tickets are inputs; their errors are not
  modelled.
- `chance` and `moment`: only in-range values, distinct values and whole seconds are assumed; `chance.unique` giving
  up is not modelled.
- Aliasing of stored objects: `addEquip` keeps a reference to the caller's object; the model stores the value.
- Aliasing inside the queue and of `LimitMap.data()`: the arrays and the map are values of fields.
- JavaScript coercions: numeric against string keys, missing `num` on equipment, text where a number is expected.
- JSON text between the two directions of the codec.
- CodecLoops.SerializeObject: a list, text or number where an object is expected is an error, although JavaScript
  would look for its properties; such inputs contradict the schema.
- CodecLoops.SerializeProps: a list, text or number in place of a map is an error, although the loop would run over
  its indices or not at all.
- CodecLoops.SerializeItems: an object, text or number in place of a list is an error, although the loop would run to
  its `length`, or not at all when it has none.
- CodecLoops.UnserializeObject: anything but a list in place of an object's array is an error, although JavaScript
  would index it.
- CodecLoops.UnserializeProps: a list, text or number in place of a map is an error, as above.
- CodecLoops.UnserializeItems: an object, text or number in place of a list is an error, as above.
- PvpRounds.FinalsGetTheirEight: for one given store of tickets it quantifies over the courses of a day on which no
  two robots share a record. Over all courses `PvpPlaces.LargeFieldsFillTheFinals` does, from 87 players on; with
  fewer, the model says that sure places are not enough, but not which stores of tickets are.
- Prizes, the fight records and the players' hero data: nothing in the tournament's lists depends on them.
- Reentrant replies: a message handed out and the reply to it are two separate steps.
- `calProfit` with a node or reward id that is not in its table, or an interval that is not positive: the source would
  throw or divide by zero.
- One-branch helpers (`isEquip`, `isStone`, `checkItemType`, `addValue`, `addAPValue`, `checkUuid`): they add nothing
  hard.
- Commented-out code, including the older map-based LRU and the item rewards of the idle settlement.
