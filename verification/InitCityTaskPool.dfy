/**
 * The start-up seeding of the pool (`InitCityTaskPool.contextInitialized`):
 * each `date,city,count` line becomes a city named by its second field with
 * `count` tasks whose ids are the city name followed by 0, 1, 2, ...; the
 * whole list is stored as today's pool. Lines come already split into their
 * comma-separated fields.
 */
module Listener {
  import opened Wrappers
  import opened Model
  import opened Pool

  /** The exceptions the seeding can end in. */
  datatype SeedError =
    | IndexOutOfBounds  // a line with fewer than three fields
    | NumberFormat      // a count field that is not a decimal `int`

  // ---------------------------------------------------------------------------
  // Decimal numbers
  // ---------------------------------------------------------------------------

  predicate IsDigit(c: char)
  {
    '0' <= c <= '9'
  }

  predicate AllDigits(s: string)
  {
    forall i :: 0 <= i < |s| ==> IsDigit(s[i])
  }

  /** The character of decimal digit `d`. */
  function DigitChar(d: nat): (c: char)
    requires d < 10
    ensures IsDigit(c) && c as int - '0' as int == d
  {
    (d + '0' as int) as char
  }

  /** Java's `String.valueOf(n)` for a non-negative `n`: its decimal digits, no leading zero. */
  function NatToString(n: nat): (s: string)
    ensures |s| >= 1 && AllDigits(s)
    ensures (|s| == 1) == (n < 10)
    ensures s[0] == '0' ==> n == 0
    decreases n
  {
    if n < 10 then [DigitChar(n)] else NatToString(n / 10) + [DigitChar(n % 10)]
  }

  /** The value of a string of decimal digits. */
  function DigitsValue(s: string): nat
    requires AllDigits(s)
  {
    if s == [] then 0 else DigitsValue(s[..|s| - 1]) * 10 + (s[|s| - 1] as int - '0' as int)
  }

  /**
   * `Integer.parseInt` on ASCII decimal strings: an optional sign, at least
   * one digit, and a value within `int`; anything else is a number-format
   * error (`None`).
   */
  function ParseInt(s: string): Option<Int32>
  {
    if s == [] then None
    else
      var digits := if s[0] == '-' || s[0] == '+' then s[1..] else s;
      if digits == [] || !AllDigits(digits) then None
      else
        var v: int := if s[0] == '-' then -(DigitsValue(digits) as int) else DigitsValue(digits);
        if INT_MIN <= v <= INT_MAX then Some(v) else None
  }

  /** Reading back the digits of `n` gives `n`. */
  lemma {:induction false} DigitsOfNat(n: nat)
    ensures DigitsValue(NatToString(n)) == n
    decreases n
  {
    if n >= 10 {
      var s := NatToString(n);
      assert s[..|s| - 1] == NatToString(n / 10);
      DigitsOfNat(n / 10);
    }
  }

  /** `parseInt` reads back what `valueOf` wrote, for every non-negative `int`. */
  lemma ParseIntOfNatToString(n: nat)
    requires n <= INT_MAX
    ensures ParseInt(NatToString(n)) == Some(n)
  {
    DigitsOfNat(n);
  }

  /** Distinct numbers are written differently. */
  lemma NatToStringInjective(a: nat, b: nat)
    requires NatToString(a) == NatToString(b)
    ensures a == b
  {
    DigitsOfNat(a);
    DigitsOfNat(b);
  }

  // ---------------------------------------------------------------------------
  // Cities from lines
  // ---------------------------------------------------------------------------

  /** The tasks generated for a city: ids `cityName + i` for `i` from 0 below `count`. */
  function TasksOf(cityName: string, count: int): seq<Task>
  {
    seq(if count < 0 then 0 else count, i requires 0 <= i => Task(cityName + NatToString(i), cityName))
  }

  /** One more task is the next id appended. */
  lemma TasksOfNext(cityName: string, n: nat)
    ensures TasksOf(cityName, n + 1) == TasksOf(cityName, n) + [Task(cityName + NatToString(n), cityName)]
  {
  }

  /** The loop building one line's tasks: `count` tasks named after the city. */
  method BuildTasks(cityName: string, count: Int32) returns (taskList: seq<Task>)
    ensures taskList == TasksOf(cityName, count)
  {
    taskList := [];
    var i := 0;
    while i < count
      invariant 0 <= i <= (if count < 0 then 0 else count)
      invariant taskList == TasksOf(cityName, i)
    {
      var taskId := cityName + NatToString(i);
      TasksOfNext(cityName, i);
      taskList := taskList + [Task(taskId, cityName)];
      i := i + 1;
    }
    if count < 0 {
      assert TasksOf(cityName, count) == [] == TasksOf(cityName, i);
    } else {
      assert i == count;
    }
  }

  /** The city one line yields: named by field 1, with as many tasks as field 2 says. */
  function ParseLine(fields: seq<string>): Result<City, SeedError>
  {
    if |fields| < 3 then Failure(IndexOutOfBounds)
    else match ParseInt(fields[2])
      case None => Failure(NumberFormat)
      case Some(count) => Success(City(fields[1], TasksOf(fields[1], count)))
  }

  /** Field 0 of a line, the date, plays no part in the city the line yields. */
  lemma ParseLineIgnoresDate(fields: seq<string>, d: string)
    requires |fields| > 0
    ensures ParseLine(fields[0 := d]) == ParseLine(fields)
  {
  }

  /** The city list the lines yield, one city per line in line order; the first bad line ends it. */
  function CityListOf(lines: seq<seq<string>>): Result<seq<City>, SeedError>
  {
    if lines == [] then Success([])
    else match CityListOf(lines[..|lines| - 1])
      case Failure(e) => Failure(e)
      case Success(cities) =>
        match ParseLine(lines[|lines| - 1])
        case Failure(e) => Failure(e)
        case Success(city) => Success(cities + [city])
  }

  /**
   * The generated tasks: `count` of them (none for a negative count), the
   * `i`-th with id `cityName + i`, every one belonging to `cityName`, and no
   * two with the same id.
   */
  lemma TasksOfShape(cityName: string, count: int)
    ensures var ts := TasksOf(cityName, count);
      && |ts| == (if count < 0 then 0 else count)
      && (forall i :: 0 <= i < |ts| ==> ts[i].taskId == cityName + NatToString(i) && ts[i].cityName == cityName)
      && (forall i, j :: 0 <= i < j < |ts| ==> ts[i].taskId != ts[j].taskId)
  {
    var ts := TasksOf(cityName, count);
    forall i, j | 0 <= i < j < |ts|
      ensures ts[i].taskId != ts[j].taskId
    {
      if ts[i].taskId == ts[j].taskId {
        assert NatToString(i) == ts[i].taskId[|cityName|..] == ts[j].taskId[|cityName|..] == NatToString(j);
        NatToStringInjective(i, j);
      }
    }
  }

  /**
   * The seeding succeeds exactly when every line does, and then yields one
   * city per line, in line order, the city of line `i` being what line `i`
   * parses to.
   */
  lemma {:induction false} CityListOfLines(lines: seq<seq<string>>)
    ensures CityListOf(lines).Success? <==> forall i :: 0 <= i < |lines| ==> ParseLine(lines[i]).Success?
    ensures CityListOf(lines).Success? ==>
      && |CityListOf(lines).value| == |lines|
      && forall i :: 0 <= i < |lines| ==> CityListOf(lines).value[i] == ParseLine(lines[i]).value
    decreases |lines|
  {
    if lines != [] {
      var front := lines[..|lines| - 1];
      CityListOfLines(front);
      assert forall i :: 0 <= i < |front| ==> front[i] == lines[i];
    }
  }

  /** Every task a successful seeding produces has a non-empty id: the city name followed by at least one digit. */
  lemma SeededIdsNonEmpty(lines: seq<seq<string>>)
    requires CityListOf(lines).Success?
    ensures IdsNonEmpty(CityListOf(lines).value)
  {
    var cs := CityListOf(lines).value;
    CityListOfLines(lines);
    forall i, j | 0 <= i < |cs| && 0 <= j < |cs[i].taskList|
      ensures cs[i].taskList[j].taskId != ""
    {
      var fields := lines[i];
      var count := ParseInt(fields[2]).value;
      assert cs[i] == City(fields[1], TasksOf(fields[1], count));
      TasksOfShape(fields[1], count);
      assert |cs[i].taskList[j].taskId| == |fields[1]| + |NatToString(j)| >= 1;
    }
  }

  /** A failed seeding reports the error of its first bad line. */
  lemma {:induction false} CityListOfFirstError(lines: seq<seq<string>>, bad: nat)
    requires bad < |lines| && ParseLine(lines[bad]).Failure?
    requires forall i :: 0 <= i < bad ==> ParseLine(lines[i]).Success?
    ensures CityListOf(lines) == Failure(ParseLine(lines[bad]).error)
    decreases |lines|
  {
    var front := lines[..|lines| - 1];
    if bad < |front| {
      assert forall i :: 0 <= i <= bad ==> front[i] == lines[i];
      CityListOfFirstError(front, bad);
    } else {
      assert forall i :: 0 <= i < bad ==> front[i] == lines[i];
      CityListOfLines(front);
    }
  }

  /** Seeding one more line: what the prefix yields, extended by that line's city. */
  lemma CityListOfStep(lines: seq<seq<string>>, l: nat)
    requires l < |lines|
    ensures CityListOf(lines[..l + 1]) ==
      match CityListOf(lines[..l])
      case Failure(e) => Failure(e)
      case Success(cities) =>
        match ParseLine(lines[l])
        case Failure(e) => Failure(e)
        case Success(city) => Success(cities + [city])
  {
    assert lines[..l + 1][..l] == lines[..l];
  }

  /** Once a prefix of the lines has failed, the whole seeding fails the same way. */
  lemma {:induction false} CityListOfPrefixFails(lines: seq<seq<string>>, m: nat)
    requires m <= |lines| && CityListOf(lines[..m]).Failure?
    ensures CityListOf(lines) == CityListOf(lines[..m])
    decreases |lines|
  {
    if m < |lines| {
      var front := lines[..|lines| - 1];
      assert front[..m] == lines[..m];
      CityListOfPrefixFails(front, m);
    } else {
      assert lines[..m] == lines;
    }
  }

  /**
   * `contextInitialized`: builds the city list line by line and stores it
   * in `pool` under `today` (the date field of the lines is not used). A bad
   * line ends the seeding with its error before anything is stored.
   */
  method ContextInitialized(pool: CityTaskPool, cityTaskData: seq<seq<string>>, today: int) returns (failure: Option<SeedError>)
    modifies pool
    ensures CityListOf(cityTaskData).Success? ==>
      failure.None? && pool.cityTaskMap == old(pool.cityTaskMap)[today := CityListOf(cityTaskData).value]
    ensures CityListOf(cityTaskData).Failure? ==>
      failure == Some(CityListOf(cityTaskData).error) && pool.cityTaskMap == old(pool.cityTaskMap)
  {
    var cityList: seq<City> := [];
    var l := 0;
    while l < |cityTaskData|
      invariant 0 <= l <= |cityTaskData|
      invariant CityListOf(cityTaskData[..l]) == Success(cityList)
      invariant pool.cityTaskMap == old(pool.cityTaskMap)
    {
      var fields := cityTaskData[l];
      CityListOfStep(cityTaskData, l);
      if |fields| < 3 {
        CityListOfPrefixFails(cityTaskData, l + 1);
        return Some(IndexOutOfBounds);
      }
      var cityName := fields[1];
      var count := ParseInt(fields[2]);
      if count.None? {
        CityListOfPrefixFails(cityTaskData, l + 1);
        return Some(NumberFormat);
      }
      var taskList := BuildTasks(cityName, count.value);
      cityList := cityList + [City(cityName, taskList)];
      l := l + 1;
    }
    assert cityTaskData[..l] == cityTaskData;
    pool.AddCityTask(today, cityList);
    failure := None;
  }

  /** The fixture the service is seeded with at start-up. */
  const Fixture: seq<seq<string>> := [
    ["    2023-06-17", "重庆", "3"],
    ["    2023-06-17", "广州", "1"],
    ["    2023-06-17", "杭州", "4"]
  ]

  /** The fixture yields 重庆 with three tasks, 广州 with one and 杭州 with four, in that order. */
  lemma FixtureCities()
    ensures CityListOf(Fixture) == Success([
      City("重庆", [Task("重庆0", "重庆"), Task("重庆1", "重庆"), Task("重庆2", "重庆")]),
      City("广州", [Task("广州0", "广州")]),
      City("杭州", [Task("杭州0", "杭州"), Task("杭州1", "杭州"), Task("杭州2", "杭州"), Task("杭州3", "杭州")])
    ])
  {
    assert ParseInt("3") == Some(3) && ParseInt("1") == Some(1) && ParseInt("4") == Some(4);
    assert NatToString(0) == "0" && NatToString(1) == "1" && NatToString(2) == "2" && NatToString(3) == "3";
    assert "重庆" + "0" == "重庆0" && "重庆" + "1" == "重庆1" && "重庆" + "2" == "重庆2";
    assert "广州" + "0" == "广州0";
    assert "杭州" + "0" == "杭州0" && "杭州" + "1" == "杭州1" && "杭州" + "2" == "杭州2" && "杭州" + "3" == "杭州3";
    assert TasksOf("重庆", 0) == [] && TasksOf("广州", 0) == [] && TasksOf("杭州", 0) == [];
    TasksOfNext("重庆", 0); TasksOfNext("重庆", 1); TasksOfNext("重庆", 2);
    TasksOfNext("广州", 0);
    TasksOfNext("杭州", 0); TasksOfNext("杭州", 1); TasksOfNext("杭州", 2); TasksOfNext("杭州", 3);
    assert TasksOf("重庆", 3) == [Task("重庆0", "重庆"), Task("重庆1", "重庆"), Task("重庆2", "重庆")];
    assert TasksOf("广州", 1) == [Task("广州0", "广州")];
    assert TasksOf("杭州", 4) == [Task("杭州0", "杭州"), Task("杭州1", "杭州"), Task("杭州2", "杭州"), Task("杭州3", "杭州")];
    var chongqing := City("重庆", [Task("重庆0", "重庆"), Task("重庆1", "重庆"), Task("重庆2", "重庆")]);
    var guangzhou := City("广州", [Task("广州0", "广州")]);
    var hangzhou := City("杭州", [Task("杭州0", "杭州"), Task("杭州1", "杭州"), Task("杭州2", "杭州"), Task("杭州3", "杭州")]);
    assert ParseLine(Fixture[0]) == Success(chongqing);
    assert ParseLine(Fixture[1]) == Success(guangzhou);
    assert ParseLine(Fixture[2]) == Success(hangzhou);
    CityListOfLines(Fixture);
    var cities := CityListOf(Fixture).value;
    assert cities[0] == chongqing && cities[1] == guangzhou && cities[2] == hangzhou;
    assert cities == [chongqing, guangzhou, hangzhou];
  }
}