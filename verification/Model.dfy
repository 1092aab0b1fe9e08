/**
 * The entities of the scheduler (`Task`, `City`, `TaskVO`, `TaskPlan`), the
 * structured key of the device–city registry, Java's 32-bit `int`, and the
 * facts about lists of cities that the stores and the allocator share.
 */
module Model {
  import opened Wrappers

  // ---------------------------------------------------------------------------
  // Java int
  // ---------------------------------------------------------------------------

  const INT_MIN: int := -0x8000_0000
  const INT_MAX: int := 0x7fff_ffff
  const TWO_POW_32: int := 0x1_0000_0000

  /** The values of a Java `int`. */
  type Int32 = x: int | INT_MIN <= x <= INT_MAX

  /** The Java `int` that an addition or subtraction yields: `x` wrapped to 32 bits. */
  function Wrap32(x: int): (r: Int32)
    ensures (r - x) % TWO_POW_32 == 0
    ensures INT_MIN <= x <= INT_MAX ==> r == x
  {
    (x - INT_MIN) % TWO_POW_32 + INT_MIN
  }

  /** Adding to an already wrapped sum wraps to the same `int` as adding to the exact sum. */
  lemma WrapOfSum(a: int, b: int)
    ensures Wrap32(Wrap32(a) + b) == Wrap32(a + b)
  {
    var q := (a - INT_MIN) / TWO_POW_32;
    assert Wrap32(a) == a - q * TWO_POW_32;
    var x := a + b - INT_MIN;
    assert (x - q * TWO_POW_32) % TWO_POW_32 == x % TWO_POW_32;
  }

  // ---------------------------------------------------------------------------
  // Entities
  // ---------------------------------------------------------------------------

  /** A unit of work. The shop, platform and done attributes are never read by the allocator. */
  datatype Task = Task(taskId: string, cityName: string)

  /** A city with its task list: a pending FIFO queue in the pool, the granted tasks in a device list. */
  datatype City = City(cityName: string, taskList: seq<Task>)

  /** What a fetch returns: the city and the id of the granted task. */
  datatype TaskVO = TaskVO(city: string, taskId: string)

  /** The descriptor returned when nothing could be drawn. */
  const NoTask: TaskVO := TaskVO("", "")

  /** A day's plan; `taskDate` is a reference that may be null. */
  datatype TaskPlan = TaskPlan(taskDate: Option<int>, cityList: seq<City>)

  /** Key of the device–city registry: a device on a day (the string `deviceId + date` in Java). */
  datatype DeviceDay = DeviceDay(deviceId: string, day: int)

  // ---------------------------------------------------------------------------
  // Lists of cities
  // ---------------------------------------------------------------------------

  /** Every task held in a list of cities, counted with multiplicity. */
  function AllTasks(cs: seq<City>): multiset<Task>
  {
    if cs == [] then multiset{} else AllTasks(cs[..|cs| - 1]) + multiset(cs[|cs| - 1].taskList)
  }

  /** The sum of the sizes of the task lists of a list of cities. */
  function TotalTasks(cs: seq<City>): nat
  {
    |AllTasks(cs)|
  }

  /** The city names of a list, in list order. */
  function Names(cs: seq<City>): seq<string>
  {
    seq(|cs|, i requires 0 <= i < |cs| => cs[i].cityName)
  }

  /** No two cities of the list share a name. */
  predicate DistinctNames(cs: seq<City>)
  {
    forall i, j :: 0 <= i < j < |cs| ==> cs[i].cityName != cs[j].cityName
  }

  /** Every task of every city of the list has a non-empty id. */
  predicate IdsNonEmpty(cs: seq<City>)
  {
    forall i, j :: 0 <= i < |cs| && 0 <= j < |cs[i].taskList| ==> cs[i].taskList[j].taskId != ""
  }

  /** The index of the first city of the list named `name`, if any. */
  function FindCity(cs: seq<City>, name: string): (r: Option<nat>)
    ensures r.Some? ==> r.value < |cs| && cs[r.value].cityName == name
    ensures r.Some? ==> forall j :: 0 <= j < r.value ==> cs[j].cityName != name
    ensures r.None? ==> forall j :: 0 <= j < |cs| ==> cs[j].cityName != name
    decreases |cs|
  {
    if cs == [] then None
    else if cs[0].cityName == name then Some(0)
    else match FindCity(cs[1..], name)
      case None => None
      case Some(i) => Some(i + 1)
  }

  /** `FindCity` returns the index of a city with that name before which no city has it. */
  lemma FindCityAt(cs: seq<City>, name: string, i: nat)
    requires i < |cs| && cs[i].cityName == name
    requires forall j :: 0 <= j < i ==> cs[j].cityName != name
    ensures FindCity(cs, name) == Some(i)
  {
  }

  /** Lists with the same names in the same order agree on having distinct names. */
  lemma SameNamesDistinct(a: seq<City>, b: seq<City>)
    requires Names(a) == Names(b) && DistinctNames(b)
    ensures DistinctNames(a)
  {
    assert forall i :: 0 <= i < |a| ==> a[i].cityName == Names(b)[i] == b[i].cityName;
  }

  /** Multiset addition cancels. */
  lemma MultisetCancel<T>(a: multiset<T>, b: multiset<T>, x: multiset<T>)
    requires a + x == b + x
    ensures a == b
  {
    assert forall t :: a[t] == (a + x)[t] - x[t] && b[t] == (b + x)[t] - x[t];
  }

  /** Appending a city adds its tasks. */
  lemma AllTasksAppend(cs: seq<City>, c: City)
    ensures AllTasks(cs + [c]) == AllTasks(cs) + multiset(c.taskList)
  {
    assert (cs + [c])[..|cs|] == cs;
  }

  /** Replacing the city at `i` swaps its tasks for the new city's. */
  lemma {:induction false} AllTasksUpdate(cs: seq<City>, i: nat, c: City)
    requires i < |cs|
    ensures AllTasks(cs[i := c]) + multiset(cs[i].taskList) == AllTasks(cs) + multiset(c.taskList)
    decreases |cs|
  {
    var n := |cs| - 1;
    if i == n {
      assert cs[i := c][..n] == cs[..n];
    } else {
      var d := cs[i := c];
      assert d[..n] == cs[..n][i := c] && d[n] == cs[n] && cs[..n][i] == cs[i];
      AllTasksUpdate(cs[..n], i, c);
      var before, after, last := AllTasks(cs[..n]), AllTasks(d[..n]), multiset(cs[n].taskList);
      assert after + multiset(cs[i].taskList) == before + multiset(c.taskList);
      calc {
        AllTasks(d) + multiset(cs[i].taskList);
        after + last + multiset(cs[i].taskList);
        before + multiset(c.taskList) + last;
        AllTasks(cs) + multiset(c.taskList);
      }
    }
  }
}
