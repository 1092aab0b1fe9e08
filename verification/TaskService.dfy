/**
 * The service fetching tasks (`TaskService`). Each method is the Java method
 * of the same name, working on the two stores in place; a Java list
 * reference is represented by where the list is stored: the device's list by
 * its registry key, a pool city by its index in today's pool list. Every
 * method is proved to leave the stores as the functions of `Allocator` say.
 */
module Service {
  import opened Wrappers
  import opened Model
  import opened Allocator
  import opened Pool
  import opened Cache

  /** `stream().map(size).reduce(0, Integer::sum)`: the wrapped sum of the sizes of the task lists. */
  method SumTaskSizes(cs: seq<City>) returns (nowTaskNum: Int32)
    ensures nowTaskNum == Wrap32(TotalTasks(cs))
  {
    nowTaskNum := 0;
    var j := 0;
    while j < |cs|
      invariant 0 <= j <= |cs|
      invariant nowTaskNum == Wrap32(TotalTasks(cs[..j]))
    {
      assert cs[..j + 1] == cs[..j] + [cs[j]];
      AllTasksAppend(cs[..j], cs[j]);
      WrapOfSum(TotalTasks(cs[..j]), |cs[j].taskList|);
      nowTaskNum := Wrap32(nowTaskNum + |cs[j].taskList|);
      j := j + 1;
    }
    assert cs[..j] == cs;
  }

  /** `stream().filter(x -> x.getCityName().equals(cityName)).findFirst()`, as an index. */
  method FindDeviceCity(cs: seq<City>, cityName: string) returns (r: Option<nat>)
    ensures r == FindCity(cs, cityName)
  {
    var j := 0;
    while j < |cs|
      invariant 0 <= j <= |cs|
      invariant forall i :: 0 <= i < j ==> cs[i].cityName != cityName
    {
      if cs[j].cityName == cityName {
        FindCityAt(cs, cityName, j);
        return Some(j);
      }
      j := j + 1;
    }
    r := None;
  }

  /**
   * `Collectors.toMap(City::getCityName, city -> city)` over today's pool,
   * as name to index. Java throws on a repeated name; here the distinct
   * names are required.
   */
  function CityMap(cs: seq<City>): (m: map<string, nat>)
    requires DistinctNames(cs)
    ensures forall name :: name in m <==> FindCity(cs, name).Some?
    ensures forall name :: name in m ==> FindCity(cs, name) == Some(m[name])
  {
    var m := map i | 0 <= i < |cs| :: cs[i].cityName := i;
    assert forall name :: name in m ==> m[name] < |cs| && cs[m[name]].cityName == name;
    forall name | name in m
      ensures FindCity(cs, name) == Some(m[name])
    {
      FindCityAt(cs, name, m[name]);
    }
    m
  }

  class TaskService {
    /** At most this many tasks per device per day (`device.task.maxNum`). */
    const maxTaskNum: Int32
    /** The city-count limit (`device.city.maxNum`). */
    const maxCityNum: Int32
    /** How many earlier days the continuity pass looks back (`device.maxIdleDays`). */
    const maxIdleDays: Int32
    /** The city task pool the service draws from. */
    const pool: CityTaskPool
    /** The device–city registry the service records grants in. */
    const cache: DeviceCityCache

    constructor (maxTaskNum: Int32, maxCityNum: Int32, maxIdleDays: Int32, pool: CityTaskPool, cache: DeviceCityCache)
      ensures this.maxTaskNum == maxTaskNum && this.maxCityNum == maxCityNum && this.maxIdleDays == maxIdleDays
      ensures this.pool == pool && this.cache == cache
    {
      this.maxTaskNum := maxTaskNum;
      this.maxCityNum := maxCityNum;
      this.maxIdleDays := maxIdleDays;
      this.pool := pool;
      this.cache := cache;
    }

    /** The configured limits. */
    function Limits(): Config
    {
      Config(maxTaskNum, maxCityNum, maxIdleDays)
    }

    /**
     * Fetches a task for `deviceId` on day `today`: the next task under the
     * allocation policy, or `("", "")` when none can be granted. Today's pool
     * must be seeded and its city names distinct.
     */
    method GetTask(deviceId: string, today: int) returns (taskVO: TaskVO)
      requires today in pool.cityTaskMap && DistinctNames(pool.cityTaskMap[today])
      modifies pool, cache
      ensures var a := Allocate(Limits(), deviceId, today, old(pool.cityTaskMap[today]), old(cache.deviceCityMap));
        && pool.cityTaskMap == old(pool.cityTaskMap)[today := a.pool]
        && cache.deviceCityMap == a.registry
        && taskVO == a.vo
      ensures DistinctNames(pool.cityTaskMap[today])
    {
      ghost var registry0 := cache.deviceCityMap;
      ghost var pool0 := pool.cityTaskMap[today];
      ghost var cfg := Limits();
      ghost var key := DeviceDay(deviceId, today);
      // read as in the source and never used afterwards
      var allCityList := pool.GetTodayCityTask(today);
      var deviceCityList := GetTodayAssinedCityList(deviceId, today);
      ghost var held := cache.deviceCityMap;
      ghost var device := held[key];
      ghost var last := Lookback(held, deviceId, today, maxIdleDays, 1);
      var drawn := GetTaskFromYesterdayCity(deviceId, today);
      if drawn.None? {
        if last.Some? {
          SameCitiesOneDraw(cfg, last.value, device, pool0);
        }
        assert pool.cityTaskMap == old(pool.cityTaskMap) && cache.deviceCityMap == held;
        drawn := GetTaskFromCityList(DeviceDay(deviceId, today), today);
      }
      taskVO := if drawn.Some? then drawn.value else TaskVO("", "");
      ghost var s := Passes(cfg, deviceId, today, pool0, registry0);
      assert pool.cityTaskMap == old(pool.cityTaskMap)[today := s.pool];
      assert cache.deviceCityMap == held[key := s.device] && drawn == s.drawn;
      PassesOneDraw(cfg, deviceId, today, pool0, registry0);
      AllocateMovesOneTask(cfg, deviceId, today, pool0, registry0);
      SameNamesDistinct(s.pool, pool0);
    }

    /** Today's list of the device, created empty and stored on the device's first call of the day. */
    method GetTodayAssinedCityList(deviceId: string, today: int) returns (deviceCityList: seq<City>)
      modifies cache
      ensures cache.deviceCityMap == GetOrCreate(old(cache.deviceCityMap), DeviceDay(deviceId, today))
      ensures deviceCityList == cache.deviceCityMap[DeviceDay(deviceId, today)]
    {
      var nowDeviceId := DeviceDay(deviceId, today);
      var stored := cache.GetDeviceCityByDeviceId(nowDeviceId);
      if stored.None? {
        deviceCityList := [];
        cache.PutDeviceCity(nowDeviceId, deviceCityList);
      } else {
        deviceCityList := stored.value;
      }
    }

    /**
     * The continuity pass: the latest record of the device among the
     * `maxIdleDays` days before today, and if there is one, a
     * `GetTaskFromSameCities` pass over its cities.
     */
    method GetTaskFromYesterdayCity(deviceId: string, today: int) returns (taskVO: Option<TaskVO>)
      requires DeviceDay(deviceId, today) in cache.deviceCityMap
      requires today in pool.cityTaskMap && DistinctNames(pool.cityTaskMap[today])
      modifies pool, cache
      ensures var key := DeviceDay(deviceId, today);
              var last := Lookback(old(cache.deviceCityMap), deviceId, today, maxIdleDays, 1);
              var device := old(cache.deviceCityMap[key]);
              var s := if last.Some? then SameCities(Limits(), last.value, device, old(pool.cityTaskMap[today]))
                       else Step(old(pool.cityTaskMap[today]), device, None);
        && pool.cityTaskMap == old(pool.cityTaskMap)[today := s.pool]
        && cache.deviceCityMap == old(cache.deviceCityMap)[key := s.device]
        && taskVO == s.drawn
    {
      ghost var registry := cache.deviceCityMap;
      var lastDeviceCityList: Option<seq<City>> := None;
      var n := 1;
      while n <= maxIdleDays && lastDeviceCityList.None?
        invariant 1 <= n
        invariant lastDeviceCityList.None? ==> Lookback(registry, deviceId, today, maxIdleDays, n) == Lookback(registry, deviceId, today, maxIdleDays, 1)
        invariant lastDeviceCityList.Some? ==> lastDeviceCityList == Lookback(registry, deviceId, today, maxIdleDays, 1)
        decreases maxIdleDays - n
      {
        lastDeviceCityList := cache.GetDeviceCityByDeviceId(DeviceDay(deviceId, today - n));
        n := n + 1;
      }
      if lastDeviceCityList.Some? {
        taskVO := GetTaskFromSameCities(lastDeviceCityList, DeviceDay(deviceId, today), today);
      } else {
        taskVO := None;
      }
    }

    /**
     * The two passes after continuity: the cities the device already holds
     * today, then every city of today's pool in pool order.
     */
    method GetTaskFromCityList(key: DeviceDay, today: int) returns (taskVO: Option<TaskVO>)
      requires key in cache.deviceCityMap
      requires today in pool.cityTaskMap && DistinctNames(pool.cityTaskMap[today])
      modifies pool, cache
      ensures var device := old(cache.deviceCityMap[key]);
              var allCityList := old(pool.cityTaskMap[today]);
              var refresh := SameCities(Limits(), device, device, allCityList);
              var s := if refresh.drawn.Some? then refresh else NewCities(Limits(), device, allCityList, 0);
        && pool.cityTaskMap == old(pool.cityTaskMap)[today := s.pool]
        && cache.deviceCityMap == old(cache.deviceCityMap)[key := s.device]
        && taskVO == s.drawn
    {
      ghost var device := cache.deviceCityMap[key];
      taskVO := GetTaskFromSameCities(None, key, today);
      if taskVO.None? {
        SameCitiesOneDraw(Limits(), device, device, old(pool.cityTaskMap[today]));
        var allCityList := pool.cityTaskMap[today];
        var k := 0;
        while k < |allCityList| && taskVO.None?
          invariant 0 <= k <= |allCityList|
          invariant key in cache.deviceCityMap && today in pool.cityTaskMap
          invariant taskVO.None? ==>
            && pool.cityTaskMap == old(pool.cityTaskMap) && cache.deviceCityMap == old(cache.deviceCityMap)
            && NewCities(Limits(), device, allCityList, k) == NewCities(Limits(), device, allCityList, 0)
          invariant taskVO.Some? ==>
            var s := NewCities(Limits(), device, allCityList, 0);
            && pool.cityTaskMap == old(pool.cityTaskMap)[today := s.pool]
            && cache.deviceCityMap == old(cache.deviceCityMap)[key := s.device]
            && taskVO == s.drawn
        {
          taskVO := GetTaskFromCity(key, today, k);
          k := k + 1;
        }
      }
    }

    /**
     * Tries the cities of `lastDeviceCityList` (or, when it is `None`, of
     * the device's own list for today) in order, each looked up by name in
     * today's pool, until a draw succeeds.
     */
    method GetTaskFromSameCities(lastDeviceCityList: Option<seq<City>>, key: DeviceDay, today: int) returns (taskVO: Option<TaskVO>)
      requires key in cache.deviceCityMap
      requires today in pool.cityTaskMap && DistinctNames(pool.cityTaskMap[today])
      modifies pool, cache
      ensures var device := old(cache.deviceCityMap[key]);
              var order := if lastDeviceCityList.Some? then lastDeviceCityList.value else device;
              var s := SameCities(Limits(), order, device, old(pool.cityTaskMap[today]));
        && pool.cityTaskMap == old(pool.cityTaskMap)[today := s.pool]
        && cache.deviceCityMap == old(cache.deviceCityMap)[key := s.device]
        && taskVO == s.drawn
    {
      var allCityList := pool.cityTaskMap[today];
      var allCityMap := CityMap(allCityList);
      var order := if lastDeviceCityList.None? then cache.deviceCityMap[key] else lastDeviceCityList.value;
      ghost var device := cache.deviceCityMap[key];
      ghost var cfg := Limits();
      ghost var target := SameCities(cfg, order, device, allCityList);
      var j := 0;
      while j < |order|
        invariant 0 <= j <= |order|
        invariant pool.cityTaskMap == old(pool.cityTaskMap) && cache.deviceCityMap == old(cache.deviceCityMap)
        invariant SameCities(cfg, order[j..], device, allCityList) == target
      {
        SameCitiesStep(cfg, order, device, allCityList, j);
        taskVO := GetTaskFromNamedCity(allCityMap, order[j].cityName, key, today);
        if taskVO.Some? {
          return;
        }
        j := j + 1;
      }
      assert order[j..] == [];
      taskVO := None;
    }

    /**
     * One element of the `getTaskFromSameCities` stream: the name is looked
     * up in the index of today's pool and, when present, drawn from.
     */
    method GetTaskFromNamedCity(allCityMap: map<string, nat>, cityName: string, key: DeviceDay, today: int) returns (taskVO: Option<TaskVO>)
      requires key in cache.deviceCityMap
      requires today in pool.cityTaskMap && DistinctNames(pool.cityTaskMap[today])
      requires allCityMap == CityMap(pool.cityTaskMap[today])
      modifies pool, cache
      ensures var s := TryName(Limits(), old(cache.deviceCityMap[key]), old(pool.cityTaskMap[today]), cityName);
        && pool.cityTaskMap == old(pool.cityTaskMap)[today := s.pool]
        && cache.deviceCityMap == old(cache.deviceCityMap)[key := s.device]
        && taskVO == s.drawn
      ensures taskVO.None? ==> pool.cityTaskMap == old(pool.cityTaskMap) && cache.deviceCityMap == old(cache.deviceCityMap)
    {
      ghost var allCityList := pool.cityTaskMap[today];
      ghost var device := cache.deviceCityMap[key];
      if cityName in allCityMap {
        taskVO := GetTaskFromCity(key, today, allCityMap[cityName]);
        if taskVO.None? {
          assert old(pool.cityTaskMap)[today := allCityList] == old(pool.cityTaskMap);
          assert old(cache.deviceCityMap)[key := device] == old(cache.deviceCityMap);
        }
      } else {
        taskVO := None;
      }
    }

    /**
     * One draw from the city at index `k` of today's pool into the device's
     * list: it fails unless the city has a pending task, the device holds
     * at most `maxCityNum` cities and fewer tasks than `maxTaskNum`;
     * otherwise it pops the city's head task and appends it to the device's
     * entry of that name, creating the entry at the end when missing.
     */
    method GetTaskFromCity(key: DeviceDay, today: int, k: nat) returns (taskVO: Option<TaskVO>)
      requires key in cache.deviceCityMap
      requires today in pool.cityTaskMap && k < |pool.cityTaskMap[today]|
      modifies pool, cache
      ensures var s := TakeFrom(Limits(), old(cache.deviceCityMap[key]), old(pool.cityTaskMap[today]), k);
        && pool.cityTaskMap == old(pool.cityTaskMap)[today := s.pool]
        && cache.deviceCityMap == old(cache.deviceCityMap)[key := s.device]
        && taskVO == s.drawn
    {
      var deviceCityList := cache.deviceCityMap[key];
      var allCityList := pool.cityTaskMap[today];
      var city := allCityList[k];
      var taskList := city.taskList;
      var cityTaskNum := |taskList|;
      taskVO := None;
      if cityTaskNum > 0 && |deviceCityList| <= maxCityNum {
        var nowTaskNum := SumTaskSizes(deviceCityList);
        var newTaskNum := Wrap32(maxTaskNum - nowTaskNum);
        if newTaskNum > 0 {
          var cityName := city.cityName;
          var at := FindDeviceCity(deviceCityList, cityName);
          ghost var device := deviceCityList;
          ghost var found := at;
          if at.None? {
            // a new, empty entry for the city, added to the stored list
            deviceCityList := deviceCityList + [City(cityName, [])];
            cache.deviceCityMap := cache.deviceCityMap[key := deviceCityList];
            at := Some(|deviceCityList| - 1);
          }
          if |taskList| > 0 {
            var task := taskList[0];
            // taskList.remove(0) on the pool city
            pool.cityTaskMap := pool.cityTaskMap[today := allCityList[k := City(cityName, taskList[1..])]];
            var i := at.value;
            ghost var withEntry := deviceCityList;
            assert found.None? ==> i == |device| && withEntry == device + [City(cityName, [])];
            // deviceCity.getTaskList().add(task) on the stored entry
            deviceCityList := deviceCityList[i := City(deviceCityList[i].cityName, deviceCityList[i].taskList + [task])];
            cache.deviceCityMap := cache.deviceCityMap[key := deviceCityList];
            taskVO := Some(TaskVO(task.cityName, task.taskId));
            if found.None? {
              assert [] + [task] == [task];
              assert deviceCityList == device + [City(cityName, [task])];
            }
            assert deviceCityList == Grant(device, cityName, task);
          }
        }
      }
    }
  }
}
