/**
 * The city task pool (`CityTaskPool`): a process-wide map from a date to the
 * list of cities seeded for that date, each with its pending task queue.
 * Dates are day numbers; "today" is passed in by the caller.
 */
module Pool {
  import opened Wrappers
  import opened Model

  class CityTaskPool {
    /** The seeded city lists, by date. */
    var cityTaskMap: map<int, seq<City>>

    constructor ()
      ensures cityTaskMap == map[]
    {
      cityTaskMap := map[];
    }

    /** Stores `cityList` as the pool of `dateKey`, replacing an earlier one. */
    method AddCityTask(dateKey: int, cityList: seq<City>)
      modifies this
      ensures cityTaskMap == old(cityTaskMap)[dateKey := cityList]
    {
      cityTaskMap := cityTaskMap[dateKey := cityList];
    }

    /** The pool of `dateKey`; `None` (Java's null) for a date never added. */
    function GetCityTaskByDate(dateKey: int): (r: Option<seq<City>>)
      reads this
      ensures r.Some? <==> dateKey in cityTaskMap
      ensures r.Some? ==> r.value == cityTaskMap[dateKey]
    {
      if dateKey in cityTaskMap then Some(cityTaskMap[dateKey]) else None
    }

    /** Today's pool: the lookup of `today`, which may be missing. */
    function GetTodayCityTask(today: int): (r: Option<seq<City>>)
      reads this
      ensures r == GetCityTaskByDate(today)
    {
      if today in cityTaskMap then Some(cityTaskMap[today]) else None
    }
  }

  /**
   * The laws of the pool, as a client sees them: a lookup after an add
   * returns what was added, a second add for the same date overwrites, and
   * other dates are untouched.
   */
  method PoolLaws(pool: CityTaskPool, date: int, other: int, first: seq<City>, second: seq<City>)
    returns (afterAdd: Option<seq<City>>, afterOverwrite: Option<seq<City>>)
    requires date != other
    modifies pool
    ensures afterAdd == Some(first)
    ensures afterOverwrite == Some(second)
    ensures pool.GetCityTaskByDate(other) == old(pool.GetCityTaskByDate(other))
  {
    pool.AddCityTask(date, first);
    afterAdd := pool.GetCityTaskByDate(date);
    pool.AddCityTask(date, second);
    afterOverwrite := pool.GetTodayCityTask(date);
  }
}
