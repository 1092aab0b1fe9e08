# Task scheduler allocator, modelled in Dafny

The scheduler hands out crawl tasks to devices. Each day has a **city task
pool**: a list of cities, each holding a FIFO list of tasks. A **device-city
registry** maps a (device, day) pair to the cities that device holds that
day, each with the tasks it was granted. On each `getTask(deviceId)` the
service makes up to three passes and stops at the first successful draw:

1. the cities of the device's most recent earlier record, looking back up
   to `maxIdleDays` days, in stored order;
2. the cities the device already holds today;
3. every city of today's pool, in pool order.

A draw from one city succeeds when three things hold:
- the city still has a task;
- the device holds at most `maxCityNum` cities (`<=`, so up to `maxCityNum + 1` can be opened);
- `maxTaskNum` minus the device's task total, in Java `int` arithmetic, is positive.

A successful draw pops the city's head task and appends it to the device's
entry for that city, creating the entry at the end of the list if needed.
When nothing is drawn the call returns `("", "")`. At start-up a listener
seeds today's pool from `date,city,count` lines: city `c` with count `n`
gets tasks `c0 … c(n-1)`. A small plan store (`TaskPool`) keeps dated plans
in insertion order.

Modules:

- `Wrappers`: `Option` and `Result`.
- `Model`: the entities (`Task`, `City`, `TaskVO`, `TaskPlan`, the registry key
  `DeviceDay`). It also holds Java `int` wrap-around and list helpers:
  - the multiset of tasks of a city list;
  - the first index of a city name.
- `Cache` (`DeviceCityCache`), `Pool` (`CityTaskPool`), `Plans` (`TaskPool`):
  the stores, as classes over a `map` or `seq` field.
- `Allocator`: what one call does, as functions of the state it reads:
  - one draw (`TakeFrom`);
  - the passes (`SameCities`, `NewCities`);
  - the lookback (`Lookback`);
  - the whole call (`Allocate`);
  - a day of calls (`Replay`).

  Its lemmas state the allocation policy and the quota invariants.
- `Service` (`TaskService`): one method per Java method, with the same loops
  and store updates. Each method is proved to produce exactly what the
  `Allocator` functions say.
- `Listener`: the seeding parser as a method with nested loops, proved equal
  to `CityListOf`. It includes decimal parsing and printing of `int`s.
- `Scenario`: the seeded fixture run for one device, plus the idle-day
  example of the continuity pass.

**Representation choices**
- Dates are integers. `today` is a parameter rather than `LocalDate.now()`.
- The registry key `deviceId + date` is the pair `DeviceDay(deviceId, day)`.
  For years 0000 to 9999 the ISO date has a fixed length of ten characters,
  so the concatenated string is injective in the pair. Years outside that
  range print with a sign (`+10000-01-01`, `-0001-01-01`), so device `a-` in
  year 1 and device `a` in year -1 share a key; for every year outside
  0000 to 9999 the pair is assumed injective.
- The Java lists returned by the stores are mutated in place after they are
  stored. The model writes each change back into the store under the key the
  list was read from:
  - the device list under its `DeviceDay` key;
  - a pool city under today's pool at its index.

  This is exact here, because the service never stores one list under two
  keys. A device list is always a fresh `ArrayList`, and so is a new device
  entry.

## Model

All source paths are under `src/main/java/com/edata/scheduler/`, written in full below.

| member | source | states |
|---|---|---|
| Model.Wrap32 | src/main/java/com/edata/scheduler/servivce/impl/TaskService.java:160-162 | Java `int` arithmetic: the result is in `int` range, congruent to the exact value modulo 2^32, and equal to it when it is in range |
| Model.WrapOfSum | src/main/java/com/edata/scheduler/servivce/impl/TaskService.java:160 | summing with `Integer::sum` step by step wraps to the same value as wrapping the exact sum once |
| Model.FindCity | src/main/java/com/edata/scheduler/servivce/impl/TaskService.java:166-169 | the first entry with the given name: its index is in range, carries that name, and no earlier entry has it; `None` exactly when no entry has it |
| Model.FindCityAt | src/main/java/com/edata/scheduler/servivce/impl/TaskService.java:166-169 | an entry with the name and none before it is what the first-match search returns |
| Model.SameNamesDistinct | src/main/java/com/edata/scheduler/servivce/impl/TaskService.java:133 | a list with the same names, in order, as a list of distinct names has distinct names too (the pool after a draw still suits `toMap`) |
| Model.AllTasksAppend | src/main/java/com/edata/scheduler/servivce/impl/TaskService.java:175 | appending a city adds exactly its tasks to the list's task multiset |
| Model.AllTasksUpdate | src/main/java/com/edata/scheduler/servivce/impl/TaskService.java:180-181 | replacing one city swaps exactly its tasks in the list's task multiset |
| Cache.DeviceCityCache.constructor | src/main/java/com/edata/scheduler/cache/DeviceCityCache.java:14 | the registry starts empty |
| Cache.DeviceCityCache.PutDeviceCity | src/main/java/com/edata/scheduler/cache/DeviceCityCache.java:21-23 | the key now maps to the given list; other keys unchanged; a second put overwrites |
| Cache.DeviceCityCache.GetDeviceCityByDeviceId | src/main/java/com/edata/scheduler/cache/DeviceCityCache.java:30-32 | the stored list when the key is present, null (`None`) exactly when it is not |
| Cache.DeviceCityCache.DelDeviceCity | src/main/java/com/edata/scheduler/cache/DeviceCityCache.java:34-36 | the key is gone; other keys unchanged |
| Cache.RegistryLaws | src/main/java/com/edata/scheduler/cache/DeviceCityCache.java:14-36 | put-then-get returns the list, a second put overwrites, delete-then-get gives null, and another key is untouched throughout |
| Pool.CityTaskPool.constructor | src/main/java/com/edata/scheduler/model/CityTaskPool.java:16 | the pool starts empty |
| Pool.CityTaskPool.AddCityTask | src/main/java/com/edata/scheduler/model/CityTaskPool.java:18-20 | the date now maps to the given city list; other dates unchanged |
| Pool.CityTaskPool.GetCityTaskByDate | src/main/java/com/edata/scheduler/model/CityTaskPool.java:22-24 | the stored list for a seeded date, null (`None`) exactly for a date never added |
| Pool.CityTaskPool.GetTodayCityTask | src/main/java/com/edata/scheduler/model/CityTaskPool.java:26-29 | today's lookup is the lookup by today's date |
| Pool.PoolLaws | src/main/java/com/edata/scheduler/model/CityTaskPool.java:16-24 | add-then-get returns the list, adding again overwrites, other dates are unaffected |
| Plans.FirstPlanDated | src/main/java/com/edata/scheduler/model/TaskPool.java:30-33 | the earliest plan dated `date`, with every earlier plan dated otherwise; NullPointer when an undated plan is reached first; NoSuchElement exactly when every plan is dated otherwise |
| Plans.TaskPool.constructor | src/main/java/com/edata/scheduler/model/TaskPool.java:16 | the plan list starts empty |
| Plans.TaskPool.AddTaskPlan | src/main/java/com/edata/scheduler/model/TaskPool.java:22-24 | the plan is appended at the end, earlier plans kept |
| Plans.TaskPool.GetTaskPlanByDate | src/main/java/com/edata/scheduler/model/TaskPool.java:26-35 | a null date gives the most recently added plan, or NoSuchElement on an empty list; a date gives the earliest plan with that date or the error of `FirstPlanDated`; reads only, never modifies |
| Service.SumTaskSizes | src/main/java/com/edata/scheduler/servivce/impl/TaskService.java:160 | the loop's sum is the device's task total wrapped to `int` |
| Service.FindDeviceCity | src/main/java/com/edata/scheduler/servivce/impl/TaskService.java:166-169 | the search loop finds the first entry of that name, or none |
| Service.CityMap | src/main/java/com/edata/scheduler/servivce/impl/TaskService.java:133 | for distinct names, the name-to-city map has exactly the pool's names as keys, each mapped to that name's city |
| Service.TaskService.constructor | src/main/java/com/edata/scheduler/servivce/impl/TaskService.java:29-40 | the three limits and the two stores are the ones given |
| Service.TaskService.GetTask | src/main/java/com/edata/scheduler/servivce/impl/TaskService.java:55-65 | today's pool, the registry and the result become exactly those of `Allocate`; the pool's names stay distinct |
| Service.TaskService.GetTodayAssinedCityList | src/main/java/com/edata/scheduler/servivce/impl/TaskService.java:72-81 | get-or-create: returns the stored list, or stores and returns an empty one |
| Service.TaskService.GetTaskFromYesterdayCity | src/main/java/com/edata/scheduler/servivce/impl/TaskService.java:91-102 | the lookback loop finds `Lookback`'s record and the continuity pass over it does what `SameCities` does, or nothing when no record is found |
| Service.TaskService.GetTaskFromCityList | src/main/java/com/edata/scheduler/servivce/impl/TaskService.java:111-122 | the held cities are tried first, then the pool in order, exactly as `SameCities` then `NewCities` |
| Service.TaskService.GetTaskFromSameCities | src/main/java/com/edata/scheduler/servivce/impl/TaskService.java:132-144 | the names of the given list (today's own list when null) are looked up in today's pool and drawn from as `SameCities` says |
| Service.TaskService.GetTaskFromNamedCity | src/main/java/com/edata/scheduler/servivce/impl/TaskService.java:138-140 | one element of the stream: a name missing from today's pool draws nothing and changes nothing, a present one draws as `TakeFrom` on its index; this is `TryName` |
| Service.TaskService.GetTaskFromCity | src/main/java/com/edata/scheduler/servivce/impl/TaskService.java:153-187 | the pool city and the device list become exactly those of `TakeFrom`, and the result is its draw |
| Allocator.CanDraw | src/main/java/com/edata/scheduler/servivce/impl/TaskService.java:158-163 | the three tests of a draw (a pending task, `<=` on the city count, positive wrapped quota difference); `TakeFromPopsHead` proves a draw succeeds exactly when they pass, `CityCapBlocksDraw` and `TaskCapBlocksDraw` that each cap blocks it |
| Allocator.Grant | src/main/java/com/edata/scheduler/servivce/impl/TaskService.java:166-181 | the device list after one task is granted; `GrantAddsTask`, `GrantKeepsOrder` and `GrantAppendsToEntry` prove it adds exactly that task, at the end of the entry of that name, opening a last entry only for a new name |
| Allocator.TakeFrom | src/main/java/com/edata/scheduler/servivce/impl/TaskService.java:153-187 | one `getTaskFromCity` on pool index `k`; `TakeFromPopsHead`, `TakeFromGrantsHead`, `TakeFromConserves` and `TakeFromKeepsWellFormed` prove it pops the head task to the device's entry, conserves tasks and keeps the quotas, or changes nothing |
| Allocator.SameCities | src/main/java/com/edata/scheduler/servivce/impl/TaskService.java:132-144 | the same-cities pass over a list of names; `SameCitiesOneDraw`, `SameCitiesFirstEligible` and `SameCitiesNoneEligible` prove it draws once from the first name in today's pool that passes the tests, skipping missing names, or changes nothing |
| Allocator.NewCities | src/main/java/com/edata/scheduler/servivce/impl/TaskService.java:115-119 | the pool-order pass; `NewCitiesOneDraw`, `NewCitiesFirstDrawable`, `NewCitiesNoneDrawable` and `NewCitiesDrawsWhenDrawable` prove it draws from the first pool city that passes the tests, and draws whenever one does |
| Allocator.Lookback | src/main/java/com/edata/scheduler/servivce/impl/TaskService.java:95-99 | the look-back loop; `LookbackFindsNearest`, `LookbackFindsNothing` and `LookbackInWindow` prove it returns the record of the nearest earlier day within `maxIdleDays`, or nothing when the window has none |
| Allocator.Allocate | src/main/java/com/edata/scheduler/servivce/impl/TaskService.java:55-65 | one whole `getTask`; `ContinuityPassWins`, `RefreshPassNext`, `NewCityPassLast`, `NothingDrawnIff`, `NoTaskIffNothingDrawable`, `AllocateMovesOneTask` and `AllocateTouchesOneRecord` prove the pass order, one draw at most, that nothing is drawn exactly when nothing is drawable (and then the result is `("", "")`), that with non-empty task ids `("", "")` comes back exactly then, and that only today's record changes |
| Allocator.Replay | src/main/java/com/edata/scheduler/servivce/impl/TaskService.java:55-65 | successive `getTask` calls on one day; `QuotaHoldsAfterCalls` proves every record of the day stays within the quotas |
| Allocator.NewCitiesDrawsWhenDrawable | src/main/java/com/edata/scheduler/servivce/impl/TaskService.java:115-119 | when some pool city from the start index on passes the tests, the pool pass draws |
| Allocator.NothingDrawnIff | src/main/java/com/edata/scheduler/servivce/impl/TaskService.java:61-64 | a call draws nothing exactly when no pool city passes the draw tests for the device's list at the start of the call, and otherwise returns the drawn task |
| Allocator.QuotaLeft | src/main/java/com/edata/scheduler/servivce/impl/TaskService.java:160-163 | within the quota of tasks, the wrapped difference is the exact number of tasks still allowed |
| Allocator.GetOrCreate | src/main/java/com/edata/scheduler/servivce/impl/TaskService.java:72-81 | the key is then present with its old list or an empty one; every other record is kept and none is added |
| Allocator.GrantAddsTask | src/main/java/com/edata/scheduler/servivce/impl/TaskService.java:171-181 | a grant adds exactly the granted task to the device's tasks |
| Allocator.GrantKeepsOrder | src/main/java/com/edata/scheduler/servivce/impl/TaskService.java:166-176 | entries keep their names and places; a new entry is appended at the end exactly when none had the name; one entry per name stays one entry per name |
| Allocator.GrantAppendsToEntry | src/main/java/com/edata/scheduler/servivce/impl/TaskService.java:171-181 | the granted task goes to the end of the entry with the city's name (a new empty entry if there was none); every other entry is unchanged |
| Allocator.TakeFromPopsHead | src/main/java/com/edata/scheduler/servivce/impl/TaskService.java:153-187 | a draw succeeds exactly when the three tests pass; a failed draw changes nothing; a success removes the head task of that pool city only and returns its city and id |
| Allocator.TakeFromGrantsHead | src/main/java/com/edata/scheduler/servivce/impl/TaskService.java:178-182 | a successful draw appends the popped head task to the device's entry of that city |
| Allocator.TryName | src/main/java/com/edata/scheduler/servivce/impl/TaskService.java:138-140 | one stream element draws exactly when a city of that name is in today's pool and passes the draw tests (`Eligible`); otherwise nothing changes |
| Allocator.SameCitiesStep | src/main/java/com/edata/scheduler/servivce/impl/TaskService.java:137-143 | the pass from position `j` is the draw at `order[j]` when it succeeds, else the pass from `j + 1` (`findFirst`) |
| Allocator.PopHeadRemovesOne | src/main/java/com/edata/scheduler/servivce/impl/TaskService.java:180 | removing a pool city's head task takes exactly that one task out of the pool's multiset |
| Allocator.TakeFromConserves | src/main/java/com/edata/scheduler/servivce/impl/TaskService.java:178-182 | the multiset of pool tasks plus device tasks is unchanged by a draw; a success moves exactly one task |
| Allocator.TakeFromKeepsWellFormed | src/main/java/com/edata/scheduler/servivce/impl/TaskService.java:158-176 | a draw keeps the device list to one entry per name, at most `maxTaskNum` tasks and at most `maxCityNum + 1` cities |
| Allocator.CityCapBlocksDraw | src/main/java/com/edata/scheduler/servivce/impl/TaskService.java:158 | with more than `maxCityNum` cities no draw succeeds, even from a city already held |
| Allocator.TaskCapBlocksDraw | src/main/java/com/edata/scheduler/servivce/impl/TaskService.java:160-163 | with the quota of tasks reached no draw succeeds |
| Allocator.SameCitiesOneDraw | src/main/java/com/edata/scheduler/servivce/impl/TaskService.java:137-143 | a same-cities pass draws once from some pool city or changes nothing |
| Allocator.NewCitiesOneDraw | src/main/java/com/edata/scheduler/servivce/impl/TaskService.java:115-119 | a pool-order pass draws once from some pool city or changes nothing |
| Allocator.SameCitiesFirstEligible | src/main/java/com/edata/scheduler/servivce/impl/TaskService.java:137-143 | the pass draws from the first name of its list that is in today's pool and passes the tests; names missing from the pool are skipped |
| Allocator.SameCitiesNoneEligible | src/main/java/com/edata/scheduler/servivce/impl/TaskService.java:137-143 | when no name qualifies, the pass draws nothing and changes nothing |
| Allocator.NewCitiesFirstDrawable | src/main/java/com/edata/scheduler/servivce/impl/TaskService.java:115-119 | the pool pass draws from the first pool city that passes the tests |
| Allocator.NewCitiesNoneDrawable | src/main/java/com/edata/scheduler/servivce/impl/TaskService.java:115-119 | when no pool city passes, the pool pass draws nothing |
| Allocator.LookbackFindsNearest | src/main/java/com/edata/scheduler/servivce/impl/TaskService.java:95-99 | the lookback returns the record of the nearest earlier day within `maxIdleDays` that has one, even an empty record |
| Allocator.LookbackFindsNothing | src/main/java/com/edata/scheduler/servivce/impl/TaskService.java:95-100 | with no record in the window (in particular when `maxIdleDays < 1`) nothing is found |
| Allocator.LookbackInWindow | src/main/java/com/edata/scheduler/servivce/impl/TaskService.java:95-99 | whatever the lookback returns is the record of a day in `today - maxIdleDays .. today - 1` |
| Allocator.LookbackIgnoresToday | src/main/java/com/edata/scheduler/servivce/impl/TaskService.java:95-98 | creating today's record does not change what the lookback finds |
| Allocator.LookbackOfCall | src/main/java/com/edata/scheduler/servivce/impl/TaskService.java:59-61 | the lookback after get-or-create finds what it finds in the registry the call starts from |
| Allocator.NoTaskIffNothingDrawable | src/main/java/com/edata/scheduler/servivce/impl/TaskService.java:55-65 | when every pooled task id is non-empty, the call returns `("", "")` exactly when no pool city passes the draw tests for the device's list |
| Allocator.AllocateKeepsIdsNonEmpty | src/main/java/com/edata/scheduler/servivce/impl/TaskService.java:178-182 | a call keeps every pooled task id non-empty, since it only removes the head of one city's list; so `NoTaskIffNothingDrawable` applies to every call of a day, not only the first |
| Allocator.PassesOneDraw | src/main/java/com/edata/scheduler/servivce/impl/TaskService.java:55-65 | a call draws at most one task; the result is the drawn task or `("", "")`, and the record is written back under today's key |
| Allocator.AllocateTouchesOneRecord | src/main/java/com/edata/scheduler/servivce/impl/TaskService.java:72-81 | a call leaves today's record present and changes no other record |
| Allocator.AllocateMovesOneTask | src/main/java/com/edata/scheduler/servivce/impl/TaskService.java:55-187 | a call conserves pool plus device tasks and keeps the pool's names; either nothing changes and `("", "")` is returned, or exactly one task moves from pool to device |
| Allocator.AllocateKeepsWellFormed | src/main/java/com/edata/scheduler/servivce/impl/TaskService.java:158-176 | a call keeps the device's list for today well formed |
| Allocator.QuotaHoldsAfterCalls | src/main/java/com/edata/scheduler/servivce/impl/TaskService.java:158-163 | after any sequence of calls on one day, every record of that day still has at most `maxTaskNum` tasks, at most `maxCityNum + 1` cities and one entry per name |
| Allocator.AllocateAtCityCap | src/main/java/com/edata/scheduler/servivce/impl/TaskService.java:158 | a device already over `maxCityNum` cities gets `("", "")` and nothing changes |
| Allocator.ContinuityPassWins | src/main/java/com/edata/scheduler/servivce/impl/TaskService.java:91-102 | when a city of the earlier record qualifies, the call draws from the first such city in the record's order |
| Allocator.RefreshPassNext | src/main/java/com/edata/scheduler/servivce/impl/TaskService.java:111-112 | when the continuity pass has nothing, the call draws from the first qualifying city already held today |
| Allocator.NewCityPassLast | src/main/java/com/edata/scheduler/servivce/impl/TaskService.java:114-119 | when neither earlier pass has anything, the call draws from the first qualifying pool city |
| Allocator.NothingDrawable | src/main/java/com/edata/scheduler/servivce/impl/TaskService.java:64 | when no pool city passes the tests, the call returns `("", "")` and only creates today's record |
| Listener.ParseInt | src/main/java/com/edata/scheduler/listener/InitCityTaskPool.java:43 | `Integer.parseInt` on ASCII decimal text: an optional sign, at least one digit, the value within `int`; `ParseIntOfNatToString` proves it reads back the decimal form of every non-negative `int` |
| Listener.TasksOf | src/main/java/com/edata/scheduler/listener/InitCityTaskPool.java:43-48 | the tasks of one line; `TasksOfShape` proves there are `count` of them (none when negative) with ids `cityName + i` in increasing `i`, all of that city and pairwise distinct |
| Listener.ParseLine | src/main/java/com/edata/scheduler/listener/InitCityTaskPool.java:39-50 | one line: fewer than three fields is an index error, a bad count a number-format error, otherwise the city named by field 1 with `TasksOf` its count; `CityListOfLines` and `CityListOfFirstError` use it per line |
| Listener.CityListOf | src/main/java/com/edata/scheduler/listener/InitCityTaskPool.java:37-52 | the city list of the lines; `CityListOfLines` proves one city per line in line order exactly when every line parses, `CityListOfFirstError` that the first bad line's error is reported |
| Listener.NatToString | src/main/java/com/edata/scheduler/listener/InitCityTaskPool.java:44 | the decimal form of the loop index is a non-empty digit string, a single digit exactly below 10, and with no leading zero |
| Listener.DigitsOfNat | src/main/java/com/edata/scheduler/listener/InitCityTaskPool.java:44 | reading the decimal form back gives the number |
| Listener.ParseIntOfNatToString | src/main/java/com/edata/scheduler/listener/InitCityTaskPool.java:43 | `parseInt` accepts the decimal form of every non-negative `int` and returns that number |
| Listener.NatToStringInjective | src/main/java/com/edata/scheduler/listener/InitCityTaskPool.java:44 | distinct indices have distinct decimal forms |
| Listener.TasksOfNext | src/main/java/com/edata/scheduler/listener/InitCityTaskPool.java:43-49 | one more iteration appends a task with the next id |
| Listener.BuildTasks | src/main/java/com/edata/scheduler/listener/InitCityTaskPool.java:42-49 | the loop builds exactly the tasks of `TasksOf` |
| Listener.TasksOfShape | src/main/java/com/edata/scheduler/listener/InitCityTaskPool.java:43-48 | a city gets `count` tasks (none for a negative count), ids `cityName + i` in increasing `i`, all belonging to the city and pairwise distinct |
| Listener.ParseLineIgnoresDate | src/main/java/com/edata/scheduler/listener/InitCityTaskPool.java:39-50 | field 0, the date, has no effect on the city a line yields; only fields 1 and 2 are read |
| Listener.SeededIdsNonEmpty | src/main/java/com/edata/scheduler/listener/InitCityTaskPool.java:43-49 | every task a successful seeding produces has a non-empty id, the city name followed by the index's digits |
| Listener.CityListOfLines | src/main/java/com/edata/scheduler/listener/InitCityTaskPool.java:38-51 | seeding succeeds exactly when every line parses, and yields one city per line in line order, each the city of its line |
| Listener.CityListOfFirstError | src/main/java/com/edata/scheduler/listener/InitCityTaskPool.java:38-43 | a failed seeding reports the error of its first bad line |
| Listener.CityListOfStep | src/main/java/com/edata/scheduler/listener/InitCityTaskPool.java:38-51 | seeding one more line extends the city list by that line's city |
| Listener.CityListOfPrefixFails | src/main/java/com/edata/scheduler/listener/InitCityTaskPool.java:38-43 | once a prefix of the lines fails, the whole seeding fails the same way |
| Listener.ContextInitialized | src/main/java/com/edata/scheduler/listener/InitCityTaskPool.java:30-55 | on success the city list is stored under today's date and nothing else changes; on a bad line the exception is reported and the pool is untouched |
| Listener.FixtureCities | src/main/java/com/edata/scheduler/listener/InitCityTaskPool.java:32-36 | the fixture yields 重庆 with 3 tasks, 广州 with 1 and 杭州 with 4, in that order, with ids 重庆0…杭州3 |
| Scenario.NoEarlierRecord | src/main/java/com/edata/scheduler/servivce/impl/TaskService.java:95-100 | with only same-day records the lookback finds nothing |
| Scenario.SeededPool | src/main/java/com/edata/scheduler/listener/InitCityTaskPool.java:32-54 | the seeded pool is the fixture pool before any draw |
| Scenario.StayInFirstCity | src/main/java/com/edata/scheduler/servivce/impl/TaskService.java:132-143 | a device holding one city that is the pool's first city with tasks left draws that city's next task |
| Scenario.FirstCall | src/main/java/com/edata/scheduler/servivce/impl/TaskService.java:55-65 | on the fixture with limits 4 and 2, a new device gets 重庆0 and holds 重庆 |
| Scenario.SecondCall | src/main/java/com/edata/scheduler/servivce/impl/TaskService.java:55-65 | the second call gives 重庆1 |
| Scenario.ThirdCall | src/main/java/com/edata/scheduler/servivce/impl/TaskService.java:55-65 | the third call gives 重庆2 |
| Scenario.FourthCall | src/main/java/com/edata/scheduler/servivce/impl/TaskService.java:114-119 | with 重庆 exhausted, the fourth call opens 广州 and gives 广州0 |
| Scenario.FifthCall | src/main/java/com/edata/scheduler/servivce/impl/TaskService.java:160-164 | with four tasks held, the fifth call gives `("", "")` and changes nothing |
| Scenario.FixtureDay | src/main/java/com/edata/scheduler/servivce/impl/TaskService.java:46-47 | five calls by one device on the seeded fixture give 重庆0, 重庆1, 重庆2, 广州0, then `("", "")` |
| Scenario.FixturePoolDistinct | src/main/java/com/edata/scheduler/servivce/impl/TaskService.java:133 | the fixture's city names are distinct, so `toMap` does not throw |
| Scenario.FixtureRun | src/main/java/com/edata/scheduler/listener/InitCityTaskPool.java:30-55 | the same five results come from the objects: a fresh pool seeded by the listener method, then five `GetTask` calls |
| Scenario.IdleDayKeepsCity | src/main/java/com/edata/scheduler/servivce/impl/TaskService.java:94-100 | a device that held a city two days ago and was idle yesterday starts today from that city, when `maxIdleDays >= 2` and the city can hand out a task |

## Left out

- Service.TaskService.GetTask: requires today's pool to be present and its city names to be distinct. For an unseeded day `CityTaskPool.getTodayCityTask()` returns null, and `getTaskFromSameCities` dereferences it at TaskService.java:133 on every path; `Collectors.toMap` at the same line throws on a duplicate name. The model does not describe those two exceptions.
- Concurrency: `synchronized` on `getTaskFromCity` and the `ConcurrentHashMap`s. The model is one sequential caller.
- `LocalDate.now()` is read several times within one call. The model uses a single integer `today` per call, so a call that spans midnight is not modelled.
- Service.TaskService.GetTaskFromYesterdayCity: when `maxIdleDays` is `Integer.MAX_VALUE` and no earlier record exists, the counter `n++` wraps to `Integer.MIN_VALUE` and `n <= maxIdleDays` stays true. The Java loop then looks up later days (`minusDays` of a negative count), and finally today, whose record was just created. It ends after about 2^32 lookups, with the continuity pass run over a later day's record or today's own list. The model's counter is unbounded and stops at `maxIdleDays`.
- In-place aliasing: a list read from a store is changed and written back under the same key. A list stored under two keys would not share later changes. The service never does that.
- Text-block indentation stripping, `String.lines()` and `String.split(",")`: the seeding input is given as lines already split into fields. The fields keep the text block's four leading spaces on the date, which is never read.
- Listener.ParseInt accepts ASCII digits only. Java's `Integer.parseInt` also accepts other Unicode decimal digits.
- Spring and servlet wiring: the HTTP controller, application start-up, the listener lifecycle and its logging.
- Configuration loading: the three limits come from properties that are not part of this model. They are constructor parameters here.
- The `Task` attributes `shop`, `shopUrl`, `platform` and `done`: the allocator never reads or writes them.
- `DeviceStateCache` and `DeviceState`: an unused map wrapper that no core code calls.
- The two test classes: one prints JDK behaviour, the other targets an unrelated endpoint. Neither states anything about allocation.
