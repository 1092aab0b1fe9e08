/**
 * The device–city registry (`DeviceCityCache`): a process-wide map from a
 * device on a day to the cities the device holds that day, each with its
 * granted tasks.
 */
module Cache {
  import opened Wrappers
  import opened Model

  class DeviceCityCache {
    /** The stored lists, by (device, day). */
    var deviceCityMap: map<DeviceDay, seq<City>>

    constructor ()
      ensures deviceCityMap == map[]
    {
      deviceCityMap := map[];
    }

    /** Stores `deviceCity` under `key`, replacing what was stored there. */
    method PutDeviceCity(key: DeviceDay, deviceCity: seq<City>)
      modifies this
      ensures deviceCityMap == old(deviceCityMap)[key := deviceCity]
    {
      deviceCityMap := deviceCityMap[key := deviceCity];
    }

    /** The list stored under `key`; `None` (Java's null) when nothing is stored there. */
    function GetDeviceCityByDeviceId(key: DeviceDay): (r: Option<seq<City>>)
      reads this
      ensures r.Some? <==> key in deviceCityMap
      ensures r.Some? ==> r.value == deviceCityMap[key]
    {
      if key in deviceCityMap then Some(deviceCityMap[key]) else None
    }

    /** Forgets whatever is stored under `key`. */
    method DelDeviceCity(key: DeviceDay)
      modifies this
      ensures deviceCityMap == old(deviceCityMap) - {key}
    {
      deviceCityMap := deviceCityMap - {key};
    }
  }

  /**
   * The laws of the registry, as a client sees them: a get after a put
   * returns what was put, a second put overwrites the first, a get after a
   * delete finds nothing, and none of this touches another key.
   */
  method RegistryLaws(cache: DeviceCityCache, key: DeviceDay, other: DeviceDay, first: seq<City>, second: seq<City>)
    returns (afterPut: Option<seq<City>>, afterOverwrite: Option<seq<City>>, afterDelete: Option<seq<City>>)
    requires key != other
    modifies cache
    ensures afterPut == Some(first)
    ensures afterOverwrite == Some(second)
    ensures afterDelete == None
    ensures cache.GetDeviceCityByDeviceId(other) == old(cache.GetDeviceCityByDeviceId(other))
  {
    cache.PutDeviceCity(key, first);
    afterPut := cache.GetDeviceCityByDeviceId(key);
    cache.PutDeviceCity(key, second);
    afterOverwrite := cache.GetDeviceCityByDeviceId(key);
    cache.DelDeviceCity(key);
    afterDelete := cache.GetDeviceCityByDeviceId(key);
  }
}
