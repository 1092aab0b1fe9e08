/**
 * What one `getTask` call does, as functions of the state it reads: today's
 * pool list and the device–city registry. `TakeFrom` is one draw
 * (`getTaskFromCity`), `SameCities` and `NewCities` are the ordered passes,
 * `Lookback` is the search for the device's latest earlier record, and
 * `Allocate` is the whole call. The lemmas state the allocation policy.
 */
module Allocator {
  import opened Wrappers
  import opened Model

  /** The three limits read from the application's configuration. */
  datatype Config = Config(maxTaskNum: Int32, maxCityNum: Int32, maxIdleDays: Int32)

  /** What a draw or a pass leaves: today's pool list, the device's list, and the granted task, if any. */
  datatype Step = Step(pool: seq<City>, device: seq<City>, drawn: Option<TaskVO>)

  /** What a whole call leaves: today's pool list, the registry, and the descriptor returned. */
  datatype Allocation = Allocation(pool: seq<City>, registry: map<DeviceDay, seq<City>>, vo: TaskVO)

  // ---------------------------------------------------------------------------
  // One draw
  // ---------------------------------------------------------------------------

  /** The most tasks a device can hold under `maxTaskNum` (none when it is negative). */
  function TaskBound(maxTaskNum: int): nat
  {
    if maxTaskNum < 0 then 0 else maxTaskNum
  }

  /** The most cities a device can hold under `maxCityNum`: the `<=` test lets it open one more. */
  function CityBound(maxCityNum: int): nat
  {
    if maxCityNum < 0 then 0 else maxCityNum + 1
  }

  /**
   * `maxTaskNum - nowTaskNum` in Java `int` arithmetic, where `nowTaskNum`
   * is the wrapped sum of the device's task-list sizes. Within the quota
   * nothing wraps.
   */
  function QuotaLeft(maxTaskNum: Int32, total: nat): (r: Int32)
    ensures total <= TaskBound(maxTaskNum) ==> r == maxTaskNum - total
  {
    Wrap32(maxTaskNum - Wrap32(total))
  }

  /** The tests a draw from `city` must pass: a pending task, the city count, the quota of tasks. */
  predicate CanDraw(cfg: Config, device: seq<City>, city: City)
  {
    && |city.taskList| > 0
    && |device| <= cfg.maxCityNum
    && QuotaLeft(cfg.maxTaskNum, TotalTasks(device)) > 0
  }

  /** The device list after `task` is granted from city `name`: added to that entry, or to a new last entry. */
  function Grant(device: seq<City>, name: string, task: Task): seq<City>
  {
    match FindCity(device, name)
    case Some(i) => device[i := City(device[i].cityName, device[i].taskList + [task])]
    case None => device + [City(name, [task])]
  }

  /** `getTaskFromCity` on the city at index `k` of today's pool. */
  function TakeFrom(cfg: Config, device: seq<City>, pool: seq<City>, k: nat): Step
    requires k < |pool|
  {
    var city := pool[k];
    if CanDraw(cfg, device, city) then
      var task := city.taskList[0];
      Step(pool[k := City(city.cityName, city.taskList[1..])],
           Grant(device, city.cityName, task),
           Some(TaskVO(task.cityName, task.taskId)))
    else
      Step(pool, device, None)
  }

  // ---------------------------------------------------------------------------
  // The passes
  // ---------------------------------------------------------------------------

  /** A city of that name is in today's pool and a draw from it would succeed. */
  predicate Eligible(cfg: Config, device: seq<City>, pool: seq<City>, name: string)
  {
    match FindCity(pool, name)
    case None => false
    case Some(k) => CanDraw(cfg, device, pool[k])
  }

  /**
   * `getTaskFromSameCities`: the cities of `order` in order, each looked up
   * by name in today's pool (names missing there are skipped); the first
   * successful draw ends the pass.
   */
  function SameCities(cfg: Config, order: seq<City>, device: seq<City>, pool: seq<City>): Step
    decreases |order|
  {
    if order == [] then Step(pool, device, None)
    else match FindCity(pool, order[0].cityName)
      case None => SameCities(cfg, order[1..], device, pool)
      case Some(k) =>
        var s := TakeFrom(cfg, device, pool, k);
        if s.drawn.Some? then s else SameCities(cfg, order[1..], device, pool)
  }

  /** One element of a `SameCities` pass: the draw from the pool city of that name, or no draw when the name is missing. */
  function TryName(cfg: Config, device: seq<City>, pool: seq<City>, name: string): (s: Step)
    ensures s.drawn.Some? <==> Eligible(cfg, device, pool, name)
    ensures s.drawn.None? ==> s.pool == pool && s.device == device
  {
    match FindCity(pool, name)
    case None => Step(pool, device, None)
    case Some(k) =>
      TakeFromPopsHead(cfg, device, pool, k);
      TakeFrom(cfg, device, pool, k)
  }

  /** A `SameCities` pass from position `j`: the draw at `order[j]` if it succeeds, else the rest of the pass. */
  lemma SameCitiesStep(cfg: Config, order: seq<City>, device: seq<City>, pool: seq<City>, j: nat)
    requires j < |order|
    ensures var s := TryName(cfg, device, pool, order[j].cityName);
      SameCities(cfg, order[j..], device, pool) == if s.drawn.Some? then s else SameCities(cfg, order[j + 1..], device, pool)
  {
    assert order[j..][1..] == order[j + 1..];
  }

  /** The last pass of `getTaskFromCityList`: today's pool cities from index `k` on, in pool order. */
  function NewCities(cfg: Config, device: seq<City>, pool: seq<City>, k: nat): Step
    decreases |pool| - k
  {
    if k >= |pool| then Step(pool, device, None)
    else
      var s := TakeFrom(cfg, device, pool, k);
      if s.drawn.Some? then s else NewCities(cfg, device, pool, k + 1)
  }

  /**
   * The loop of `getTaskFromYesterdayCity` from counter `n` on: the
   * device's record for `today - n`, `today - n - 1`, ... down to
   * `today - maxIdleDays`; the first record present is taken, even an
   * empty one.
   */
  function Lookback(registry: map<DeviceDay, seq<City>>, deviceId: string, today: int, maxIdleDays: int, n: int): Option<seq<City>>
    decreases maxIdleDays - n
  {
    if n > maxIdleDays then None
    else if DeviceDay(deviceId, today - n) in registry then Some(registry[DeviceDay(deviceId, today - n)])
    else Lookback(registry, deviceId, today, maxIdleDays, n + 1)
  }

  /** `getTodayAssinedCityList` on a registry: the record of `key`, created empty if missing. */
  function GetOrCreate(registry: map<DeviceDay, seq<City>>, key: DeviceDay): (r: map<DeviceDay, seq<City>>)
    ensures r.Keys == registry.Keys + {key}
    ensures r[key] == (if key in registry then registry[key] else [])
    ensures forall other :: other in registry ==> r[other] == registry[other]
  {
    if key in registry then registry else registry[key := []]
  }

  /** The outcome of the passes of one call, before the registry is written back. */
  function Passes(cfg: Config, deviceId: string, today: int, pool: seq<City>, registry: map<DeviceDay, seq<City>>): Step
  {
    var key := DeviceDay(deviceId, today);
    var held := GetOrCreate(registry, key);
    var device := held[key];
    var last := Lookback(held, deviceId, today, cfg.maxIdleDays, 1);
    var continuity := if last.Some? then SameCities(cfg, last.value, device, pool) else Step(pool, device, None);
    if continuity.drawn.Some? then continuity
    else
      var refresh := SameCities(cfg, device, device, pool);
      if refresh.drawn.Some? then refresh else NewCities(cfg, device, pool, 0)
  }

  /**
   * One `getTask(deviceId)` call on day `today`: get-or-create today's
   * record, then the continuity pass over the latest earlier record, then the
   * cities already held today, then today's pool in order; the first
   * successful draw wins and `("", "")` means nothing was drawn.
   */
  function Allocate(cfg: Config, deviceId: string, today: int, pool: seq<City>, registry: map<DeviceDay, seq<City>>): Allocation
  {
    var key := DeviceDay(deviceId, today);
    var s := Passes(cfg, deviceId, today, pool, registry);
    Allocation(s.pool, GetOrCreate(registry, key)[key := s.device], if s.drawn.Some? then s.drawn.value else NoTask)
  }

  /** Successive calls on day `today` by the devices of `devices`, in order. */
  function Replay(cfg: Config, today: int, devices: seq<string>, pool: seq<City>, registry: map<DeviceDay, seq<City>>)
    : (seq<City>, map<DeviceDay, seq<City>>)
    decreases |devices|
  {
    if devices == [] then (pool, registry)
    else
      var a := Allocate(cfg, devices[0], today, pool, registry);
      Replay(cfg, today, devices[1..], a.pool, a.registry)
  }

  // ---------------------------------------------------------------------------
  // Invariants
  // ---------------------------------------------------------------------------

  /** A device's list for a day: one entry per city name, within both quotas. */
  predicate WellFormed(cfg: Config, device: seq<City>)
  {
    && DistinctNames(device)
    && TotalTasks(device) <= TaskBound(cfg.maxTaskNum)
    && |device| <= CityBound(cfg.maxCityNum)
  }

  /** Every record of day `today` is well formed. */
  predicate QuotaHolds(cfg: Config, today: int, registry: map<DeviceDay, seq<City>>)
  {
    forall key :: key in registry && key.day == today ==> WellFormed(cfg, registry[key])
  }

  /** The pass result `s` is either no draw at all or one successful draw from some pool index. */
  predicate OneDrawOrNone(cfg: Config, device: seq<City>, pool: seq<City>, s: Step)
  {
    || (s.drawn.None? && s.pool == pool && s.device == device)
    || (exists k :: 0 <= k < |pool| && s == TakeFrom(cfg, device, pool, k) && s.drawn.Some?)
  }

  // ---------------------------------------------------------------------------
  // Lemmas: one draw
  // ---------------------------------------------------------------------------

  /** A grant adds exactly the granted task to the device's tasks. */
  lemma GrantAddsTask(device: seq<City>, name: string, task: Task)
    ensures AllTasks(Grant(device, name, task)) == AllTasks(device) + multiset{task}
  {
    match FindCity(device, name)
    case Some(i) =>
      var old_ := multiset(device[i].taskList);
      var c := City(device[i].cityName, device[i].taskList + [task]);
      AllTasksUpdate(device, i, c);
      assert multiset(c.taskList) == old_ + multiset{task};
      assert AllTasks(device[i := c]) + old_ == (AllTasks(device) + multiset{task}) + old_;
      MultisetCancel(AllTasks(device[i := c]), AllTasks(device) + multiset{task}, old_);
    case None =>
      AllTasksAppend(device, City(name, [task]));
  }

  /**
   * A grant keeps every entry's name and place; it opens a new entry, at the
   * end, exactly when the device held no entry named `name`; so one entry
   * per name stays one entry per name.
   */
  lemma GrantKeepsOrder(device: seq<City>, name: string, task: Task)
    ensures var r := Grant(device, name, task);
      && |device| <= |r| <= |device| + 1
      && Names(r)[..|device|] == Names(device)
      && (|r| == |device| + 1 <==> FindCity(device, name).None?)
      && (|r| == |device| + 1 ==> r[|device|] == City(name, [task]))
      && (DistinctNames(device) ==> DistinctNames(r))
  {
  }

  /** A grant appends the granted task to the entry named `name`, which then exists, and leaves the other entries alone. */
  lemma GrantAppendsToEntry(device: seq<City>, name: string, task: Task)
    ensures var r := Grant(device, name, task);
      && FindCity(r, name).Some?
      && r[FindCity(r, name).value].taskList
         == (if FindCity(device, name).Some? then device[FindCity(device, name).value].taskList else []) + [task]
      && forall j :: 0 <= j < |device| && Some(j) != FindCity(device, name) ==> r[j] == device[j]
  {
    var r := Grant(device, name, task);
    match FindCity(device, name)
    case Some(i) =>
      FindCityAt(r, name, i);
    case None =>
      FindCityAt(r, name, |device|);
  }

  /**
   * A draw succeeds exactly when the three tests pass, and a failed draw
   * changes nothing; a successful one removes the head task of the pool
   * city, leaves the other pool cities alone and returns that task's city
   * and id.
   */
  lemma TakeFromPopsHead(cfg: Config, device: seq<City>, pool: seq<City>, k: nat)
    requires k < |pool|
    ensures var s := TakeFrom(cfg, device, pool, k);
      && (s.drawn.Some? <==> CanDraw(cfg, device, pool[k]))
      && (s.drawn.None? ==> s.pool == pool && s.device == device)
      && |s.pool| == |pool| && Names(s.pool) == Names(pool)
      && (s.drawn.Some? ==>
            var task := pool[k].taskList[0];
            && s.drawn.value == TaskVO(task.cityName, task.taskId)
            && s.pool[k].taskList == pool[k].taskList[1..]
            && forall j :: 0 <= j < |pool| && j != k ==> s.pool[j] == pool[j])
  {
  }

  /** A successful draw appends the popped task to the device's entry with the pool city's name. */
  lemma TakeFromGrantsHead(cfg: Config, device: seq<City>, pool: seq<City>, k: nat)
    requires k < |pool|
    ensures var s := TakeFrom(cfg, device, pool, k);
            var name := pool[k].cityName;
      s.drawn.Some? ==>
        && FindCity(s.device, name).Some?
        && s.device[FindCity(s.device, name).value].taskList
           == (if FindCity(device, name).Some? then device[FindCity(device, name).value].taskList else []) + [pool[k].taskList[0]]
  {
    if CanDraw(cfg, device, pool[k]) {
      GrantAppendsToEntry(device, pool[k].cityName, pool[k].taskList[0]);
    }
  }

  /**
   * A draw moves a task and creates none: the multiset of tasks in pool and
   * device together is unchanged, and a success moves exactly one.
   */
  lemma TakeFromConserves(cfg: Config, device: seq<City>, pool: seq<City>, k: nat)
    requires k < |pool|
    ensures var s := TakeFrom(cfg, device, pool, k);
      && AllTasks(s.pool) + AllTasks(s.device) == AllTasks(pool) + AllTasks(device)
      && (s.drawn.Some? ==> TotalTasks(s.device) == TotalTasks(device) + 1 && TotalTasks(s.pool) + 1 == TotalTasks(pool))
  {
    if CanDraw(cfg, device, pool[k]) {
      var city := pool[k];
      GrantAddsTask(device, city.cityName, city.taskList[0]);
      PopHeadRemovesOne(pool, k);
    }
  }

  /** Popping the head task of pool city `k` removes exactly that task from the pool's tasks. */
  lemma PopHeadRemovesOne(pool: seq<City>, k: nat)
    requires k < |pool| && |pool[k].taskList| > 0
    ensures var city := pool[k];
      AllTasks(pool[k := City(city.cityName, city.taskList[1..])]) + multiset{city.taskList[0]} == AllTasks(pool)
  {
    var city := pool[k];
    var task := city.taskList[0];
    var rest := City(city.cityName, city.taskList[1..]);
    AllTasksUpdate(pool, k, rest);
    assert city.taskList == [task] + city.taskList[1..];
    var tail := multiset(rest.taskList);
    assert multiset(city.taskList) == multiset{task} + tail;
    assert (AllTasks(pool[k := rest]) + multiset{task}) + tail == AllTasks(pool) + tail;
    MultisetCancel(AllTasks(pool[k := rest]) + multiset{task}, AllTasks(pool), tail);
  }

  /** A draw keeps a well-formed device list well formed: the quota tests see to it. */
  lemma TakeFromKeepsWellFormed(cfg: Config, device: seq<City>, pool: seq<City>, k: nat)
    requires k < |pool| && WellFormed(cfg, device)
    ensures WellFormed(cfg, TakeFrom(cfg, device, pool, k).device)
  {
    if CanDraw(cfg, device, pool[k]) {
      TakeFromConserves(cfg, device, pool, k);
      GrantKeepsOrder(device, pool[k].cityName, pool[k].taskList[0]);
    }
  }

  /** Once a device holds more than `maxCityNum` cities, no draw succeeds, even from a city it holds. */
  lemma CityCapBlocksDraw(cfg: Config, device: seq<City>, pool: seq<City>, k: nat)
    requires k < |pool| && |device| > cfg.maxCityNum
    ensures TakeFrom(cfg, device, pool, k) == Step(pool, device, None)
  {
  }

  /** Once a device holds as many tasks as `maxTaskNum` allows, no draw succeeds. */
  lemma TaskCapBlocksDraw(cfg: Config, device: seq<City>, pool: seq<City>, k: nat)
    requires k < |pool| && TotalTasks(device) == TaskBound(cfg.maxTaskNum)
    ensures TakeFrom(cfg, device, pool, k) == Step(pool, device, None)
  {
  }

  // ---------------------------------------------------------------------------
  // Lemmas: the passes
  // ---------------------------------------------------------------------------

  /** A `SameCities` pass draws at most once. */
  lemma {:induction false} SameCitiesOneDraw(cfg: Config, order: seq<City>, device: seq<City>, pool: seq<City>)
    ensures OneDrawOrNone(cfg, device, pool, SameCities(cfg, order, device, pool))
    decreases |order|
  {
    if order != [] {
      match FindCity(pool, order[0].cityName)
      case None => SameCitiesOneDraw(cfg, order[1..], device, pool);
      case Some(k) =>
        if TakeFrom(cfg, device, pool, k).drawn.None? {
          SameCitiesOneDraw(cfg, order[1..], device, pool);
        }
    }
  }

  /** A `NewCities` pass draws at most once. */
  lemma {:induction false} NewCitiesOneDraw(cfg: Config, device: seq<City>, pool: seq<City>, k: nat)
    ensures OneDrawOrNone(cfg, device, pool, NewCities(cfg, device, pool, k))
    decreases |pool| - k
  {
    if k < |pool| && TakeFrom(cfg, device, pool, k).drawn.None? {
      NewCitiesOneDraw(cfg, device, pool, k + 1);
    }
  }

  /** The first eligible name of `order` is the one a `SameCities` pass draws from. */
  lemma {:induction false} SameCitiesFirstEligible(cfg: Config, order: seq<City>, device: seq<City>, pool: seq<City>, j: nat)
    requires j < |order| && Eligible(cfg, device, pool, order[j].cityName)
    requires forall i :: 0 <= i < j ==> !Eligible(cfg, device, pool, order[i].cityName)
    ensures FindCity(pool, order[j].cityName).Some?
    ensures SameCities(cfg, order, device, pool) == TakeFrom(cfg, device, pool, FindCity(pool, order[j].cityName).value)
    decreases j
  {
    if j > 0 {
      assert !Eligible(cfg, device, pool, order[0].cityName);
      SameCitiesFirstEligible(cfg, order[1..], device, pool, j - 1);
    }
  }

  /** When no name of `order` is eligible, a `SameCities` pass draws nothing and changes nothing. */
  lemma {:induction false} SameCitiesNoneEligible(cfg: Config, order: seq<City>, device: seq<City>, pool: seq<City>)
    requires forall i :: 0 <= i < |order| ==> !Eligible(cfg, device, pool, order[i].cityName)
    ensures SameCities(cfg, order, device, pool) == Step(pool, device, None)
    decreases |order|
  {
    if order != [] {
      assert !Eligible(cfg, device, pool, order[0].cityName);
      SameCitiesNoneEligible(cfg, order[1..], device, pool);
    }
  }

  /** The first pool city from `k` on that passes the draw tests is the one `NewCities` draws from. */
  lemma {:induction false} NewCitiesFirstDrawable(cfg: Config, device: seq<City>, pool: seq<City>, k: nat, j: nat)
    requires k <= j < |pool| && CanDraw(cfg, device, pool[j])
    requires forall i :: k <= i < j ==> !CanDraw(cfg, device, pool[i])
    ensures NewCities(cfg, device, pool, k) == TakeFrom(cfg, device, pool, j)
    decreases j - k
  {
    if k < j {
      NewCitiesFirstDrawable(cfg, device, pool, k + 1, j);
    }
  }

  /** When no pool city from `k` on passes the draw tests, `NewCities` draws nothing. */
  lemma {:induction false} NewCitiesNoneDrawable(cfg: Config, device: seq<City>, pool: seq<City>, k: nat)
    requires forall i :: k <= i < |pool| ==> !CanDraw(cfg, device, pool[i])
    ensures NewCities(cfg, device, pool, k) == Step(pool, device, None)
    decreases |pool| - k
  {
    if k < |pool| {
      NewCitiesNoneDrawable(cfg, device, pool, k + 1);
    }
  }

  // ---------------------------------------------------------------------------
  // Lemmas: the lookback
  // ---------------------------------------------------------------------------

  /** The device has a record for day `day`. */
  predicate HasRecord(registry: map<DeviceDay, seq<City>>, deviceId: string, day: int)
  {
    DeviceDay(deviceId, day) in registry
  }

  /**
   * The lookback finds the record of `today - n` when `n` is within
   * `1..maxIdleDays`, that record exists and no day between it and today has
   * one (`LookbackInWindow` is the converse).
   */
  lemma {:induction false} LookbackFindsNearest(registry: map<DeviceDay, seq<City>>, deviceId: string, today: int, maxIdleDays: int, start: int, n: int)
    requires 1 <= start <= n <= maxIdleDays && HasRecord(registry, deviceId, today - n)
    requires forall day :: today - n < day <= today - start ==> !HasRecord(registry, deviceId, day)
    ensures Lookback(registry, deviceId, today, maxIdleDays, start) == Some(registry[DeviceDay(deviceId, today - n)])
    decreases n - start
  {
    if start < n {
      assert !HasRecord(registry, deviceId, today - start);
      LookbackFindsNearest(registry, deviceId, today, maxIdleDays, start + 1, n);
    }
  }

  /** The lookback finds nothing when no day of the window has a record (so always when `maxIdleDays < 1`). */
  lemma {:induction false} LookbackFindsNothing(registry: map<DeviceDay, seq<City>>, deviceId: string, today: int, maxIdleDays: int, start: int)
    requires forall day :: today - maxIdleDays <= day <= today - start ==> !HasRecord(registry, deviceId, day)
    ensures Lookback(registry, deviceId, today, maxIdleDays, start) == None
    decreases maxIdleDays - start
  {
    if start <= maxIdleDays {
      assert !HasRecord(registry, deviceId, today - start);
      LookbackFindsNothing(registry, deviceId, today, maxIdleDays, start + 1);
    }
  }

  /** Whatever the lookback returns is the record of some day of the window. */
  lemma {:induction false} LookbackInWindow(registry: map<DeviceDay, seq<City>>, deviceId: string, today: int, maxIdleDays: int, start: int)
    ensures var r := Lookback(registry, deviceId, today, maxIdleDays, start);
      r.Some? ==> exists day :: today - maxIdleDays <= day <= today - start && HasRecord(registry, deviceId, day) && r.value == registry[DeviceDay(deviceId, day)]
    decreases maxIdleDays - start
  {
    if start <= maxIdleDays && !HasRecord(registry, deviceId, today - start) {
      LookbackInWindow(registry, deviceId, today, maxIdleDays, start + 1);
    }
  }

  // ---------------------------------------------------------------------------
  // Lemmas: a whole call
  // ---------------------------------------------------------------------------

  /** The device's list for today before the passes run (the get-or-create result). */
  function Held(registry: map<DeviceDay, seq<City>>, deviceId: string, today: int): seq<City>
  {
    var key := DeviceDay(deviceId, today);
    if key in registry then registry[key] else []
  }


  /** A call draws at most once: its passes are one draw from today's pool or nothing. */
  lemma PassesOneDraw(cfg: Config, deviceId: string, today: int, pool: seq<City>, registry: map<DeviceDay, seq<City>>)
    ensures OneDrawOrNone(cfg, Held(registry, deviceId, today), pool, Passes(cfg, deviceId, today, pool, registry))
    ensures var a := Allocate(cfg, deviceId, today, pool, registry);
            var s := Passes(cfg, deviceId, today, pool, registry);
            var key := DeviceDay(deviceId, today);
            a.pool == s.pool && a.registry == GetOrCreate(registry, key)[key := s.device]
            && a.vo == (if s.drawn.Some? then s.drawn.value else NoTask)
  {
    var key := DeviceDay(deviceId, today);
    var held := GetOrCreate(registry, key);
    var device := held[key];
    var last := Lookback(held, deviceId, today, cfg.maxIdleDays, 1);
    if last.Some? {
      SameCitiesOneDraw(cfg, last.value, device, pool);
    }
    SameCitiesOneDraw(cfg, device, device, pool);
    NewCitiesOneDraw(cfg, device, pool, 0);
  }

  /** A call creates today's record if missing and changes no other record. */
  lemma AllocateTouchesOneRecord(cfg: Config, deviceId: string, today: int, pool: seq<City>, registry: map<DeviceDay, seq<City>>)
    ensures var a := Allocate(cfg, deviceId, today, pool, registry);
            var key := DeviceDay(deviceId, today);
            key in a.registry && a.registry == registry[key := a.registry[key]]
  {
  }

  /**
   * One call moves at most one task, from today's pool to the device's list
   * for today: the multiset of tasks in both together is unchanged, and
   * either nothing changed and `("", "")` is returned, or the device holds
   * exactly one more task and the pool one fewer. The pool's city names stay
   * as they were.
   */
  lemma AllocateMovesOneTask(cfg: Config, deviceId: string, today: int, pool: seq<City>, registry: map<DeviceDay, seq<City>>)
    ensures var a := Allocate(cfg, deviceId, today, pool, registry);
            var after := a.registry[DeviceDay(deviceId, today)];
            var before := Held(registry, deviceId, today);
            && AllTasks(a.pool) + AllTasks(after) == AllTasks(pool) + AllTasks(before)
            && Names(a.pool) == Names(pool)
            && ((a.pool == pool && after == before && a.vo == NoTask)
                || (TotalTasks(after) == TotalTasks(before) + 1 && TotalTasks(a.pool) + 1 == TotalTasks(pool)))
  {
    PassesOneDraw(cfg, deviceId, today, pool, registry);
    var s := Passes(cfg, deviceId, today, pool, registry);
    var before := Held(registry, deviceId, today);
    if s.drawn.Some? {
      var k :| 0 <= k < |pool| && s == TakeFrom(cfg, before, pool, k) && s.drawn.Some?;
      TakeFromPopsHead(cfg, before, pool, k);
      TakeFromConserves(cfg, before, pool, k);
    }
  }

  /** A call keeps the device's list for today well formed: within `maxTaskNum` tasks and `maxCityNum + 1` cities. */
  lemma AllocateKeepsWellFormed(cfg: Config, deviceId: string, today: int, pool: seq<City>, registry: map<DeviceDay, seq<City>>)
    requires WellFormed(cfg, Held(registry, deviceId, today))
    ensures WellFormed(cfg, Allocate(cfg, deviceId, today, pool, registry).registry[DeviceDay(deviceId, today)])
  {
    PassesOneDraw(cfg, deviceId, today, pool, registry);
    var s := Passes(cfg, deviceId, today, pool, registry);
    var before := Held(registry, deviceId, today);
    if s.drawn.Some? {
      var k :| 0 <= k < |pool| && s == TakeFrom(cfg, before, pool, k) && s.drawn.Some?;
      TakeFromKeepsWellFormed(cfg, before, pool, k);
    }
  }

  /**
   * The quota invariant over any sequence of calls on one day: if every
   * record of the day is within the quotas, it still is afterwards.
   */
  lemma {:induction false} QuotaHoldsAfterCalls(cfg: Config, today: int, devices: seq<string>, pool: seq<City>, registry: map<DeviceDay, seq<City>>)
    requires QuotaHolds(cfg, today, registry)
    ensures QuotaHolds(cfg, today, Replay(cfg, today, devices, pool, registry).1)
    decreases |devices|
  {
    if devices != [] {
      var a := Allocate(cfg, devices[0], today, pool, registry);
      var key := DeviceDay(devices[0], today);
      assert WellFormed(cfg, Held(registry, devices[0], today));
      AllocateTouchesOneRecord(cfg, devices[0], today, pool, registry);
      AllocateKeepsWellFormed(cfg, devices[0], today, pool, registry);
      assert QuotaHolds(cfg, today, a.registry);
      QuotaHoldsAfterCalls(cfg, today, devices[1..], a.pool, a.registry);
    }
  }

  /** A device already holding more than `maxCityNum` cities today gets `("", "")` and nothing changes. */
  lemma AllocateAtCityCap(cfg: Config, deviceId: string, today: int, pool: seq<City>, registry: map<DeviceDay, seq<City>>)
    requires DeviceDay(deviceId, today) in registry && |registry[DeviceDay(deviceId, today)]| > cfg.maxCityNum
    ensures Allocate(cfg, deviceId, today, pool, registry) == Allocation(pool, registry, NoTask)
  {
    var device := registry[DeviceDay(deviceId, today)];
    assert forall i :: 0 <= i < |pool| ==> !CanDraw(cfg, device, pool[i]);
    NewCitiesNoneDrawable(cfg, device, pool, 0);
    var last := Lookback(registry, deviceId, today, cfg.maxIdleDays, 1);
    if last.Some? {
      SameCitiesNoneEligible(cfg, last.value, device, pool);
    }
    SameCitiesNoneEligible(cfg, device, device, pool);
  }

  // ---------------------------------------------------------------------------
  // Lemmas: the order of the passes
  // ---------------------------------------------------------------------------

  /** Creating today's record does not change what the lookback finds: it only looks at earlier days. */
  lemma {:induction false} LookbackIgnoresToday(registry: map<DeviceDay, seq<City>>, deviceId: string, today: int, maxIdleDays: int, start: int, v: seq<City>)
    requires start >= 1
    ensures Lookback(registry[DeviceDay(deviceId, today) := v], deviceId, today, maxIdleDays, start)
         == Lookback(registry, deviceId, today, maxIdleDays, start)
    decreases maxIdleDays - start
  {
    if start <= maxIdleDays {
      LookbackIgnoresToday(registry, deviceId, today, maxIdleDays, start + 1, v);
    }
  }

  /** What the lookback of a call finds in the registry it is given. */
  lemma LookbackOfCall(cfg: Config, deviceId: string, today: int, registry: map<DeviceDay, seq<City>>)
    ensures Lookback(GetOrCreate(registry, DeviceDay(deviceId, today)), deviceId, today, cfg.maxIdleDays, 1)
         == Lookback(registry, deviceId, today, cfg.maxIdleDays, 1)
  {
    var key := DeviceDay(deviceId, today);
    if key !in registry {
      LookbackIgnoresToday(registry, deviceId, today, cfg.maxIdleDays, 1, []);
    }
  }

  /** No name of `order` is eligible for the device. */
  predicate NoneEligible(cfg: Config, device: seq<City>, pool: seq<City>, order: seq<City>)
  {
    forall i :: 0 <= i < |order| ==> !Eligible(cfg, device, pool, order[i].cityName)
  }

  /** The call's result is the draw `s` from today's pool, written back into today's record. */
  predicate CallDrew(a: Allocation, s: Step, deviceId: string, today: int)
  {
    && s.drawn.Some?
    && a.pool == s.pool
    && DeviceDay(deviceId, today) in a.registry
    && a.registry[DeviceDay(deviceId, today)] == s.device
    && a.vo == s.drawn.value
  }

  /**
   * Continuity first (stickiness): when the lookback finds an earlier record
   * and some city of it is eligible today, the call draws from the first
   * such city in the record's order.
   */
  lemma ContinuityPassWins(cfg: Config, deviceId: string, today: int, pool: seq<City>, registry: map<DeviceDay, seq<City>>, last: seq<City>, j: nat)
    requires Lookback(registry, deviceId, today, cfg.maxIdleDays, 1) == Some(last)
    requires j < |last| && Eligible(cfg, Held(registry, deviceId, today), pool, last[j].cityName)
    requires NoneEligible(cfg, Held(registry, deviceId, today), pool, last[..j])
    ensures FindCity(pool, last[j].cityName).Some?
    ensures CallDrew(Allocate(cfg, deviceId, today, pool, registry),
                     TakeFrom(cfg, Held(registry, deviceId, today), pool, FindCity(pool, last[j].cityName).value), deviceId, today)
  {
    LookbackOfCall(cfg, deviceId, today, registry);
    var device := Held(registry, deviceId, today);
    assert forall i :: 0 <= i < j ==> last[..j][i] == last[i];
    SameCitiesFirstEligible(cfg, last, device, pool, j);
    TakeFromPopsHead(cfg, device, pool, FindCity(pool, last[j].cityName).value);
  }

  /**
   * The held cities next: when the continuity pass has nothing eligible, the
   * call draws from the first eligible city the device already holds today,
   * in the order it first drew from them.
   */
  lemma RefreshPassNext(cfg: Config, deviceId: string, today: int, pool: seq<City>, registry: map<DeviceDay, seq<City>>, j: nat)
    requires var last := Lookback(registry, deviceId, today, cfg.maxIdleDays, 1);
             last.Some? ==> NoneEligible(cfg, Held(registry, deviceId, today), pool, last.value)
    requires var device := Held(registry, deviceId, today);
             j < |device| && Eligible(cfg, device, pool, device[j].cityName) && NoneEligible(cfg, device, pool, device[..j])
    ensures var device := Held(registry, deviceId, today);
            && FindCity(pool, device[j].cityName).Some?
            && CallDrew(Allocate(cfg, deviceId, today, pool, registry),
                        TakeFrom(cfg, device, pool, FindCity(pool, device[j].cityName).value), deviceId, today)
  {
    LookbackOfCall(cfg, deviceId, today, registry);
    var device := Held(registry, deviceId, today);
    var last := Lookback(registry, deviceId, today, cfg.maxIdleDays, 1);
    if last.Some? {
      SameCitiesNoneEligible(cfg, last.value, device, pool);
    }
    assert forall i :: 0 <= i < j ==> device[..j][i] == device[i];
    SameCitiesFirstEligible(cfg, device, device, pool, j);
    TakeFromPopsHead(cfg, device, pool, FindCity(pool, device[j].cityName).value);
  }

  /**
   * Today's pool last: when neither earlier pass has anything eligible, the
   * call draws from the first city of today's pool, in pool order, that
   * passes the draw tests.
   */
  lemma NewCityPassLast(cfg: Config, deviceId: string, today: int, pool: seq<City>, registry: map<DeviceDay, seq<City>>, k: nat)
    requires var last := Lookback(registry, deviceId, today, cfg.maxIdleDays, 1);
             last.Some? ==> NoneEligible(cfg, Held(registry, deviceId, today), pool, last.value)
    requires var device := Held(registry, deviceId, today); NoneEligible(cfg, device, pool, device)
    requires k < |pool| && CanDraw(cfg, Held(registry, deviceId, today), pool[k])
    requires forall i :: 0 <= i < k ==> !CanDraw(cfg, Held(registry, deviceId, today), pool[i])
    ensures CallDrew(Allocate(cfg, deviceId, today, pool, registry), TakeFrom(cfg, Held(registry, deviceId, today), pool, k), deviceId, today)
  {
    LookbackOfCall(cfg, deviceId, today, registry);
    var device := Held(registry, deviceId, today);
    var last := Lookback(registry, deviceId, today, cfg.maxIdleDays, 1);
    if last.Some? {
      SameCitiesNoneEligible(cfg, last.value, device, pool);
    }
    SameCitiesNoneEligible(cfg, device, device, pool);
    NewCitiesFirstDrawable(cfg, device, pool, 0, k);
    TakeFromPopsHead(cfg, device, pool, k);
  }

  /**
   * Exhaustion: when no city of today's pool passes the draw tests, the call
   * returns `("", "")`, leaves the pool alone and only creates today's
   * record if it was missing; calling again changes nothing more.
   */
  lemma NothingDrawable(cfg: Config, deviceId: string, today: int, pool: seq<City>, registry: map<DeviceDay, seq<City>>)
    requires forall i :: 0 <= i < |pool| ==> !CanDraw(cfg, Held(registry, deviceId, today), pool[i])
    ensures Allocate(cfg, deviceId, today, pool, registry) == Allocation(pool, GetOrCreate(registry, DeviceDay(deviceId, today)), NoTask)
  {
    var device := Held(registry, deviceId, today);
    var held := GetOrCreate(registry, DeviceDay(deviceId, today));
    forall name: string
      ensures !Eligible(cfg, device, pool, name)
    {
    }
    var last := Lookback(held, deviceId, today, cfg.maxIdleDays, 1);
    if last.Some? {
      SameCitiesNoneEligible(cfg, last.value, device, pool);
    }
    SameCitiesNoneEligible(cfg, device, device, pool);
    NewCitiesNoneDrawable(cfg, device, pool, 0);
  }

  /** When some pool city from `k` on passes the draw tests, the pool pass draws. */
  lemma {:induction false} NewCitiesDrawsWhenDrawable(cfg: Config, device: seq<City>, pool: seq<City>, k: nat, j: nat)
    requires k <= j < |pool| && CanDraw(cfg, device, pool[j])
    ensures NewCities(cfg, device, pool, k).drawn.Some?
    decreases j - k
  {
    if k < j && TakeFrom(cfg, device, pool, k).drawn.None? {
      NewCitiesDrawsWhenDrawable(cfg, device, pool, k + 1, j);
    }
  }

  /**
   * A call returns `("", "")` from drawing nothing exactly when no city of
   * today's pool passes the draw tests for the device's list as it stands
   * at the start of the call; otherwise its result is the drawn task.
   */
  lemma NothingDrawnIff(cfg: Config, deviceId: string, today: int, pool: seq<City>, registry: map<DeviceDay, seq<City>>)
    ensures var s := Passes(cfg, deviceId, today, pool, registry);
      && (s.drawn.None? <==> forall i :: 0 <= i < |pool| ==> !CanDraw(cfg, Held(registry, deviceId, today), pool[i]))
      && Allocate(cfg, deviceId, today, pool, registry).vo == (if s.drawn.Some? then s.drawn.value else NoTask)
  {
    var device := Held(registry, deviceId, today);
    PassesOneDraw(cfg, deviceId, today, pool, registry);
    if forall i :: 0 <= i < |pool| ==> !CanDraw(cfg, device, pool[i]) {
      NothingDrawable(cfg, deviceId, today, pool, registry);
    } else {
      var k :| 0 <= k < |pool| && CanDraw(cfg, device, pool[k]);
      NewCitiesDrawsWhenDrawable(cfg, device, pool, 0, k);
    }
  }

  /**
   * When every pooled task has a non-empty id (as seeding guarantees, see
   * `SeededIdsNonEmpty`), a call returns `("", "")` exactly when no city of
   * today's pool passes the draw tests for the device's list.
   */
  lemma NoTaskIffNothingDrawable(cfg: Config, deviceId: string, today: int, pool: seq<City>, registry: map<DeviceDay, seq<City>>)
    requires IdsNonEmpty(pool)
    ensures Allocate(cfg, deviceId, today, pool, registry).vo == NoTask
        <==> forall i :: 0 <= i < |pool| ==> !CanDraw(cfg, Held(registry, deviceId, today), pool[i])
  {
    var s := Passes(cfg, deviceId, today, pool, registry);
    NothingDrawnIff(cfg, deviceId, today, pool, registry);
    PassesOneDraw(cfg, deviceId, today, pool, registry);
    if s.drawn.Some? {
      var k :| 0 <= k < |pool| && s == TakeFrom(cfg, Held(registry, deviceId, today), pool, k) && s.drawn.Some?;
      assert s.drawn.value.taskId == pool[k].taskList[0].taskId != "";
    }
  }

  /** A call keeps every pooled task id non-empty: it only removes the head of one city's list. */
  lemma AllocateKeepsIdsNonEmpty(cfg: Config, deviceId: string, today: int, pool: seq<City>, registry: map<DeviceDay, seq<City>>)
    requires IdsNonEmpty(pool)
    ensures IdsNonEmpty(Allocate(cfg, deviceId, today, pool, registry).pool)
  {
    var s := Passes(cfg, deviceId, today, pool, registry);
    var device := Held(registry, deviceId, today);
    PassesOneDraw(cfg, deviceId, today, pool, registry);
    if s.drawn.Some? {
      var k :| 0 <= k < |pool| && s == TakeFrom(cfg, device, pool, k) && s.drawn.Some?;
      TakeFromPopsHead(cfg, device, pool, k);
      forall i, j | 0 <= i < |s.pool| && 0 <= j < |s.pool[i].taskList|
        ensures s.pool[i].taskList[j].taskId != ""
      {
        if i == k {
          assert s.pool[k].taskList[j] == pool[k].taskList[j + 1];
        }
      }
    }
  }
}
