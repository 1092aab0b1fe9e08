/**
 * Worked runs of the allocator on the start-up fixture, and the idle-day
 * example of the continuity pass.
 */
module Scenario {
  import opened Wrappers
  import opened Model
  import opened Allocator
  import Listener
  import opened Pool
  import opened Cache
  import opened Service

  const Chongqing0 := Task("重庆0", "重庆")
  const Chongqing1 := Task("重庆1", "重庆")
  const Chongqing2 := Task("重庆2", "重庆")
  const Guangzhou0 := Task("广州0", "广州")
  const HangzhouTasks := [Task("杭州0", "杭州"), Task("杭州1", "杭州"), Task("杭州2", "杭州"), Task("杭州3", "杭州")]

  /** Today's pool after `drawn` tasks of 重庆 and `fromGuangzhou` of 广州 have been handed out. */
  function FixturePool(drawn: nat, fromGuangzhou: nat): seq<City>
    requires drawn <= 3 && fromGuangzhou <= 1
  {
    [City("重庆", [Chongqing0, Chongqing1, Chongqing2][drawn..]),
     City("广州", [Guangzhou0][fromGuangzhou..]),
     City("杭州", HangzhouTasks)]
  }

  /** Quotas of the run: four tasks and (with the `<=` test) up to three cities a day. */
  function RunConfig(maxIdleDays: Int32): Config
  {
    Config(4, 2, maxIdleDays)
  }

  /** With only records of today, the lookback finds nothing. */
  lemma NoEarlierRecord(cfg: Config, deviceId: string, today: int, registry: map<DeviceDay, seq<City>>)
    requires forall key :: key in registry ==> key.day == today
    ensures Lookback(registry, deviceId, today, cfg.maxIdleDays, 1) == None
  {
    LookbackFindsNothing(registry, deviceId, today, cfg.maxIdleDays, 1);
  }

  /** The seeded pool is the fixture pool before any draw. */
  lemma SeededPool()
    ensures Listener.CityListOf(Listener.Fixture) == Success(FixturePool(0, 0))
  {
    Listener.FixtureCities();
  }

  /** First call: a new device opens 重庆, the first city of the pool. */
  lemma FirstCall(maxIdleDays: Int32, deviceId: string, today: int)
    ensures Allocate(RunConfig(maxIdleDays), deviceId, today, FixturePool(0, 0), map[])
         == Allocation(FixturePool(1, 0), map[DeviceDay(deviceId, today) := [City("重庆", [Chongqing0])]], TaskVO("重庆", "重庆0"))
  {
    var cfg := RunConfig(maxIdleDays);
    var registry: map<DeviceDay, seq<City>> := map[];
    NoEarlierRecord(cfg, deviceId, today, registry);
    assert Held(registry, deviceId, today) == [];
    assert TotalTasks([]) == 0;
    NewCityPassLast(cfg, deviceId, today, FixturePool(0, 0), registry, 0);
    AllocateTouchesOneRecord(cfg, deviceId, today, FixturePool(0, 0), registry);
    assert [Chongqing0, Chongqing1, Chongqing2][0..][1..] == [Chongqing0, Chongqing1, Chongqing2][1..];
    assert TakeFrom(cfg, [], FixturePool(0, 0), 0).pool == FixturePool(1, 0);
    assert Grant([], "重庆", Chongqing0) == [City("重庆", [Chongqing0])];
  }

  /** A list of one city holds that city's tasks. */
  lemma OneCityTotal(c: City)
    ensures TotalTasks([c]) == |c.taskList|
  {
    assert [c][..0] == [];
    assert AllTasks([c]) == multiset(c.taskList);
  }

  /** A call by a device that holds only `held` today, in its first city, which is the first city of `pool`. */
  lemma StayInFirstCity(maxIdleDays: Int32, deviceId: string, today: int, pool: seq<City>, held: seq<City>)
    requires |held| == 1 && |pool| > 0 && pool[0].cityName == held[0].cityName && |pool[0].taskList| > 0
    requires |held[0].taskList| < 4
    ensures var key := DeviceDay(deviceId, today);
      var task := pool[0].taskList[0];
      Allocate(RunConfig(maxIdleDays), deviceId, today, pool, map[key := held])
      == Allocation(pool[0 := City(pool[0].cityName, pool[0].taskList[1..])],
                    map[key := [City(held[0].cityName, held[0].taskList + [task])]],
                    TaskVO(task.cityName, task.taskId))
  {
    var cfg := RunConfig(maxIdleDays);
    var key := DeviceDay(deviceId, today);
    var registry := map[key := held];
    NoEarlierRecord(cfg, deviceId, today, registry);
    assert Held(registry, deviceId, today) == held;
    OneCityTotal(held[0]);
    assert held == [held[0]];
    assert FindCity(pool, held[0].cityName) == Some(0);
    assert FindCity(held, held[0].cityName) == Some(0);
    assert held[..0] == [];
    assert CanDraw(cfg, held, pool[0]);
    RefreshPassNext(cfg, deviceId, today, pool, registry, 0);
    AllocateTouchesOneRecord(cfg, deviceId, today, pool, registry);
    var task := pool[0].taskList[0];
    var grown := [City(held[0].cityName, held[0].taskList + [task])];
    assert Grant(held, held[0].cityName, task) == grown;
    var a := Allocate(cfg, deviceId, today, pool, registry);
    assert a.registry[key] == grown;
    assert a.registry == map[key := grown];
  }

  /** Second call: the device stays in 重庆. */
  lemma SecondCall(maxIdleDays: Int32, deviceId: string, today: int)
    ensures var key := DeviceDay(deviceId, today);
      Allocate(RunConfig(maxIdleDays), deviceId, today, FixturePool(1, 0), map[key := [City("重庆", [Chongqing0])]])
      == Allocation(FixturePool(2, 0), map[key := [City("重庆", [Chongqing0, Chongqing1])]], TaskVO("重庆", "重庆1"))
  {
    var held := [City("重庆", [Chongqing0])];
    StayInFirstCity(maxIdleDays, deviceId, today, FixturePool(1, 0), held);
    assert [Chongqing0, Chongqing1, Chongqing2][1..][1..] == [Chongqing0, Chongqing1, Chongqing2][2..];
    assert [Chongqing0] + [Chongqing1] == [Chongqing0, Chongqing1];
  }

  /** Third call: the last task of 重庆. */
  lemma ThirdCall(maxIdleDays: Int32, deviceId: string, today: int)
    ensures var key := DeviceDay(deviceId, today);
      Allocate(RunConfig(maxIdleDays), deviceId, today, FixturePool(2, 0), map[key := [City("重庆", [Chongqing0, Chongqing1])]])
      == Allocation(FixturePool(3, 0), map[key := [City("重庆", [Chongqing0, Chongqing1, Chongqing2])]], TaskVO("重庆", "重庆2"))
  {
    var held := [City("重庆", [Chongqing0, Chongqing1])];
    StayInFirstCity(maxIdleDays, deviceId, today, FixturePool(2, 0), held);
    assert [Chongqing0, Chongqing1, Chongqing2][2..][1..] == [Chongqing0, Chongqing1, Chongqing2][3..];
    assert [Chongqing0, Chongqing1] + [Chongqing2] == [Chongqing0, Chongqing1, Chongqing2];
  }

  /** Fourth call: 重庆 is exhausted, so the device opens 广州, the next city of the pool. */
  lemma FourthCall(maxIdleDays: Int32, deviceId: string, today: int)
    ensures var key := DeviceDay(deviceId, today);
      Allocate(RunConfig(maxIdleDays), deviceId, today, FixturePool(3, 0), map[key := [City("重庆", [Chongqing0, Chongqing1, Chongqing2])]])
      == Allocation(FixturePool(3, 1),
                    map[key := [City("重庆", [Chongqing0, Chongqing1, Chongqing2]), City("广州", [Guangzhou0])]],
                    TaskVO("广州", "广州0"))
  {
    var cfg := RunConfig(maxIdleDays);
    var key := DeviceDay(deviceId, today);
    var held := [City("重庆", [Chongqing0, Chongqing1, Chongqing2])];
    var registry := map[key := held];
    var pool := FixturePool(3, 0);
    NoEarlierRecord(cfg, deviceId, today, registry);
    assert Held(registry, deviceId, today) == held;
    OneCityTotal(held[0]);
    assert pool[0].taskList == [];
    assert FindCity(pool, "重庆") == Some(0);
    assert !Eligible(cfg, held, pool, held[0].cityName);
    assert FindCity(held, "广州") == None;
    assert CanDraw(cfg, held, pool[1]) && !CanDraw(cfg, held, pool[0]);
    NewCityPassLast(cfg, deviceId, today, pool, registry, 1);
    AllocateTouchesOneRecord(cfg, deviceId, today, pool, registry);
    assert [Guangzhou0][0..][1..] == [Guangzhou0][1..];
    var grown := [City("重庆", [Chongqing0, Chongqing1, Chongqing2]), City("广州", [Guangzhou0])];
    assert Grant(held, "广州", Guangzhou0) == grown;
    assert TakeFrom(cfg, held, pool, 1).pool == FixturePool(3, 1);
    var a := Allocate(cfg, deviceId, today, pool, registry);
    assert a.registry[key] == grown;
    assert a.registry == map[key := grown];
  }

  /** Fifth call: the device holds four tasks, its quota, so it gets `("", "")` and nothing changes. */
  lemma FifthCall(maxIdleDays: Int32, deviceId: string, today: int)
    ensures var key := DeviceDay(deviceId, today);
      var device := [City("重庆", [Chongqing0, Chongqing1, Chongqing2]), City("广州", [Guangzhou0])];
      Allocate(RunConfig(maxIdleDays), deviceId, today, FixturePool(3, 1), map[key := device])
      == Allocation(FixturePool(3, 1), map[key := device], NoTask)
  {
    var key := DeviceDay(deviceId, today);
    var device := [City("重庆", [Chongqing0, Chongqing1, Chongqing2]), City("广州", [Guangzhou0])];
    assert device[..1] == [device[0]];
    OneCityTotal(device[0]);
    assert TotalTasks(device) == |AllTasks([device[0]]) + multiset{Guangzhou0}| == 4;
    NothingDrawable(RunConfig(maxIdleDays), deviceId, today, FixturePool(3, 1), map[key := device]);
  }

  /**
   * A day of one device on the seeded fixture with a quota of four tasks:
   * 重庆0, 重庆1 and 重庆2 (it stays in its city), then 广州0 (the next city
   * once 重庆 is exhausted), then nothing (the quota is reached).
   */
  lemma FixtureDay(maxIdleDays: Int32, deviceId: string, today: int)
    ensures Listener.CityListOf(Listener.Fixture).Success?
    ensures var cfg := RunConfig(maxIdleDays);
      var a1 := Allocate(cfg, deviceId, today, Listener.CityListOf(Listener.Fixture).value, map[]);
      var a2 := Allocate(cfg, deviceId, today, a1.pool, a1.registry);
      var a3 := Allocate(cfg, deviceId, today, a2.pool, a2.registry);
      var a4 := Allocate(cfg, deviceId, today, a3.pool, a3.registry);
      var a5 := Allocate(cfg, deviceId, today, a4.pool, a4.registry);
      [a1.vo, a2.vo, a3.vo, a4.vo, a5.vo]
      == [TaskVO("重庆", "重庆0"), TaskVO("重庆", "重庆1"), TaskVO("重庆", "重庆2"), TaskVO("广州", "广州0"), NoTask]
  {
    SeededPool();
    FirstCall(maxIdleDays, deviceId, today);
    SecondCall(maxIdleDays, deviceId, today);
    ThirdCall(maxIdleDays, deviceId, today);
    FourthCall(maxIdleDays, deviceId, today);
    FifthCall(maxIdleDays, deviceId, today);
  }

  /**
   * Idle lookback: a device that held city `last[0]` two days ago and made
   * no request yesterday still starts today from that city, when the
   * lookback window reaches two days and the city can hand out a task.
   */
  lemma IdleDayKeepsCity(cfg: Config, deviceId: string, today: int, pool: seq<City>, registry: map<DeviceDay, seq<City>>)
    requires cfg.maxIdleDays >= 2
    requires HasRecord(registry, deviceId, today - 2) && !HasRecord(registry, deviceId, today - 1)
    requires var last := registry[DeviceDay(deviceId, today - 2)];
      |last| > 0 && Eligible(cfg, Held(registry, deviceId, today), pool, last[0].cityName)
    ensures var last := registry[DeviceDay(deviceId, today - 2)];
      && FindCity(pool, last[0].cityName).Some?
      && CallDrew(Allocate(cfg, deviceId, today, pool, registry),
                  TakeFrom(cfg, Held(registry, deviceId, today), pool, FindCity(pool, last[0].cityName).value), deviceId, today)
  {
    var last := registry[DeviceDay(deviceId, today - 2)];
    LookbackFindsNearest(registry, deviceId, today, cfg.maxIdleDays, 1, 2);
    ContinuityPassWins(cfg, deviceId, today, pool, registry, last, 0);
  }

  /** The fixture pool's cities have distinct names. */
  lemma FixturePoolDistinct()
    ensures DistinctNames(FixturePool(0, 0))
  {
  }

  /**
   * The same day run on the objects: seed a fresh pool from the fixture,
   * build the service over it with a quota of four tasks and two cities,
   * and fetch five times for one device.
   */
  method FixtureRun(maxIdleDays: Int32, deviceId: string, today: int) returns (vos: seq<TaskVO>)
    ensures vos == [TaskVO("重庆", "重庆0"), TaskVO("重庆", "重庆1"), TaskVO("重庆", "重庆2"), TaskVO("广州", "广州0"), NoTask]
  {
    var pool := new CityTaskPool();
    var cache := new DeviceCityCache();
    var failure := Listener.ContextInitialized(pool, Listener.Fixture, today);
    SeededPool();
    FixturePoolDistinct();
    var service := new TaskService(4, 2, maxIdleDays, pool, cache);
    assert service.Limits() == RunConfig(maxIdleDays);
    FirstCall(maxIdleDays, deviceId, today);
    var first := service.GetTask(deviceId, today);
    SecondCall(maxIdleDays, deviceId, today);
    var second := service.GetTask(deviceId, today);
    ThirdCall(maxIdleDays, deviceId, today);
    var third := service.GetTask(deviceId, today);
    FourthCall(maxIdleDays, deviceId, today);
    var fourth := service.GetTask(deviceId, today);
    FifthCall(maxIdleDays, deviceId, today);
    var fifth := service.GetTask(deviceId, today);
    vos := [first, second, third, fourth, fifth];
  }
}
