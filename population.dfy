/**
 * The population aggregation of handler.go: a list of city rows is folded
 * into a map from country code to the total population of the cities that
 * carry a (non-NULL) country code.
 *
 * `PopulationSum` is the specification: the left-to-right fold the Go loop
 * performs, one city at a time. `ValidCodes` and `CodeTotal` are independent
 * reference definitions (the set of codes present, and a per-code sum), and
 * the lemmas below tie the fold to them. `CalculatePopulationSum` is the loop
 * itself, proved equal to the fold.
 */
module Population {

  /** sql.NullString: the string, and whether the column was non-NULL. */
  datatype NullString = NullString(str: string, valid: bool)

  /** sql.NullInt64: the integer, and whether the column was non-NULL. */
  datatype NullInt64 = NullInt64(int64: int, valid: bool)

  /** A row of the `city` table. */
  datatype City = City(
    id: int,
    name: NullString,
    countryCode: NullString,
    district: NullString,
    population: NullInt64)

  /** Reading `code` from a Go map of totals: a missing key reads as 0. */
  function Get(totals: map<string, int>, code: string): int
  {
    if code in totals then totals[code] else 0
  }

  /** What one city adds to the total of the country `code`. */
  function Contribution(city: City, code: string): int
  {
    if city.countryCode.valid && city.countryCode.str == code then city.population.int64 else 0
  }

  /**
   * One step of the loop: a city with a valid country code adds its
   * population (read whether or not that column is valid) to the total for
   * that code; a missing key reads as 0, as a Go map does.
   */
  function AddCity(totals: map<string, int>, city: City): (r: map<string, int>)
    ensures city.countryCode.valid ==> r.Keys == totals.Keys + {city.countryCode.str}
    ensures !city.countryCode.valid ==> r == totals
    ensures forall code {:trigger Get(r, code)} :: Get(r, code) == Get(totals, code) + Contribution(city, code)
  {
    if city.countryCode.valid then
      var code := city.countryCode.str;
      totals[code := Get(totals, code) + city.population.int64]
    else
      totals
  }

  /** The map the loop has built after visiting every city of `cities`, in order. */
  function PopulationSum(cities: seq<City>): (r: map<string, int>)
    ensures forall code :: code in r <==> code in ValidCodes(cities)
  {
    if cities == [] then map[]
    else
      var prefix, last := cities[..|cities| - 1], cities[|cities| - 1];
      assert cities == prefix + [last];
      assert ValidCodes(cities) == ValidCodes(prefix) + (if last.countryCode.valid then {last.countryCode.str} else {});
      AddCity(PopulationSum(prefix), last)
  }

  /** The country codes of the cities whose code is not NULL. */
  function ValidCodes(cities: seq<City>): set<string>
  {
    set city | city in cities && city.countryCode.valid :: city.countryCode.str
  }

  /** The total population of the cities whose valid country code is `code`. */
  function CodeTotal(cities: seq<City>, code: string): int
  {
    if cities == [] then 0 else Contribution(cities[0], code) + CodeTotal(cities[1..], code)
  }

  /** The cities whose country code is valid, in their original order. */
  function OnlyValid(cities: seq<City>): (r: seq<City>)
    ensures forall city :: city in r ==> city.countryCode.valid
    ensures |r| <= |cities|
  {
    if cities == [] then []
    else
      var last := cities[|cities| - 1];
      OnlyValid(cities[..|cities| - 1]) + (if last.countryCode.valid then [last] else [])
  }

  lemma {:induction false} CodeTotalAppend(a: seq<City>, b: seq<City>, code: string)
    ensures CodeTotal(a + b, code) == CodeTotal(a, code) + CodeTotal(b, code)
  {
    if a == [] {
      assert a + b == b;
    } else {
      assert (a + b)[1..] == a[1..] + b;
      CodeTotalAppend(a[1..], b, code);
    }
  }

  /** The keys of the result are exactly the valid country codes of the input, as a set equality. */
  lemma PopulationSumKeys(cities: seq<City>)
    ensures PopulationSum(cities).Keys == ValidCodes(cities)
  {
  }

  /**
   * Looking up any code in the result, with Go's zero default for a missing
   * key, gives the total population of the cities with that code.
   */
  lemma {:induction false} PopulationSumAt(cities: seq<City>, code: string)
    ensures Get(PopulationSum(cities), code) == CodeTotal(cities, code)
  {
    if cities != [] {
      var prefix, last := cities[..|cities| - 1], cities[|cities| - 1];
      assert cities == prefix + [last];
      PopulationSumAt(prefix, code);
      CodeTotalAppend(prefix, [last], code);
      assert CodeTotal([last], code) == Contribution(last, code) by {
        assert [last][1..] == [];
      }
    }
  }

  /** Both properties in one: the key set, and the value under every key. */
  lemma PopulationSumCharacterized(cities: seq<City>)
    ensures PopulationSum(cities).Keys == ValidCodes(cities)
    ensures forall code :: code in PopulationSum(cities) ==> PopulationSum(cities)[code] == CodeTotal(cities, code)
  {
    PopulationSumKeys(cities);
    forall code | code in PopulationSum(cities)
      ensures PopulationSum(cities)[code] == CodeTotal(cities, code)
    {
      PopulationSumAt(cities, code);
    }
  }

  /** No input, no countries. */
  lemma PopulationSumEmpty()
    ensures PopulationSum([]) == map[]
  {
  }

  /** Cities with a NULL country code contribute nothing: dropping them leaves the result unchanged. */
  lemma {:induction false} InvalidCitiesIgnored(cities: seq<City>)
    ensures PopulationSum(OnlyValid(cities)) == PopulationSum(cities)
  {
    if cities != [] {
      var prefix, last := cities[..|cities| - 1], cities[|cities| - 1];
      InvalidCitiesIgnored(prefix);
      if last.countryCode.valid {
        var kept := OnlyValid(prefix) + [last];
        assert kept[..|kept| - 1] == OnlyValid(prefix);
      } else {
        assert OnlyValid(cities) == OnlyValid(prefix);
      }
    }
  }

  /** Taking one city out of the list takes exactly its contribution out of every total. */
  lemma CodeTotalRemove(b: seq<City>, j: nat, code: string)
    requires j < |b|
    ensures multiset(b[..j] + b[j + 1..]) == multiset(b) - multiset{b[j]}
    ensures CodeTotal(b, code) == Contribution(b[j], code) + CodeTotal(b[..j] + b[j + 1..], code)
  {
    var x := b[j];
    assert b == b[..j] + [x] + b[j + 1..];
    CodeTotalAppend(b[..j] + [x], b[j + 1..], code);
    CodeTotalAppend(b[..j], [x], code);
    CodeTotalAppend(b[..j], b[j + 1..], code);
    assert CodeTotal([x], code) == Contribution(x, code) by {
      assert [x][1..] == [];
    }
  }

  lemma {:induction false} CodeTotalPermutation(a: seq<City>, b: seq<City>, code: string)
    requires multiset(a) == multiset(b)
    ensures CodeTotal(a, code) == CodeTotal(b, code)
    decreases |a|
  {
    if a == [] {
      assert |b| == |multiset(b)| == 0;
    } else {
      var x := a[0];
      assert x in multiset(b);
      var j :| 0 <= j < |b| && b[j] == x;
      CodeTotalRemove(b, j, code);
      assert a == [x] + a[1..];
      assert multiset(a[1..]) == multiset(a) - multiset{x};
      CodeTotalPermutation(a[1..], b[..j] + b[j + 1..], code);
    }
  }

  /** The result does not depend on the order in which the rows arrive. */
  lemma PopulationSumPermutation(a: seq<City>, b: seq<City>)
    requires multiset(a) == multiset(b)
    ensures PopulationSum(a) == PopulationSum(b)
  {
    PopulationSumKeys(a);
    PopulationSumKeys(b);
    forall city
      ensures city in a <==> city in b
    {
      assert city in a <==> city in multiset(a);
      assert city in b <==> city in multiset(b);
    }
    assert ValidCodes(a) == ValidCodes(b);
    forall code | code in PopulationSum(a)
      ensures PopulationSum(a)[code] == PopulationSum(b)[code]
    {
      PopulationSumAt(a, code);
      PopulationSumAt(b, code);
      CodeTotalPermutation(a, b, code);
    }
  }

  /** The fold over the first `k` cities is one loop step after the fold over the first `k - 1`. */
  lemma PopulationSumStep(cities: seq<City>, k: nat)
    requires 0 < k <= |cities|
    ensures PopulationSum(cities[..k]) == AddCity(PopulationSum(cities[..k - 1]), cities[k - 1])
  {
    assert cities[..k][..k - 1] == cities[..k - 1];
  }

  /** Five rows are folded in five steps, first row first. */
  lemma PopulationSumOfFive(cities: seq<City>)
    requires |cities| == 5
    ensures PopulationSum(cities)
            == AddCity(AddCity(AddCity(AddCity(AddCity(map[], cities[0]), cities[1]), cities[2]), cities[3]), cities[4])
  {
    assert cities[..0] == [];
    PopulationSumStep(cities, 1);
    PopulationSumStep(cities, 2);
    PopulationSumStep(cities, 3);
    PopulationSumStep(cities, 4);
    PopulationSumStep(cities, 5);
    assert cities[..5] == cities;
  }

  /** A city row with every column non-NULL. */
  function Row(id: int, name: string, code: string, district: string, population: int): City
  {
    City(id, NullString(name, true), NullString(code, true), NullString(district, true), NullInt64(population, true))
  }

  /** Three cities of one country add up under its code alone. */
  lemma OneCountryExample()
    ensures PopulationSum([
      Row(3793, "New York", "USA", "New York", 8008278),
      Row(3795, "Chicago", "USA", "Illinois", 2896016),
      Row(3812, "Boston", "USA", "Massachusetts", 589141)])
      == map["USA" := 11493435]
  {
    var cities := [
      Row(3793, "New York", "USA", "New York", 8008278),
      Row(3795, "Chicago", "USA", "Illinois", 2896016),
      Row(3812, "Boston", "USA", "Massachusetts", 589141)];
    assert cities[..2][..1] == cities[..1];
    assert cities[..|cities| - 1] == cities[..2];
    assert PopulationSum(cities[..1]) == map["USA" := 8008278];
  }

  /** Cities of three countries, interleaved, give one total per country. */
  lemma MultiCountryExample(cities: seq<City>)
    requires cities == [
      Row(1564, "Omiya", "JPN", "Saitama", 441649),
      Row(3795, "Chicago", "USA", "Illinois", 2896016),
      Row(3812, "Boston", "USA", "Massachusetts", 589141),
      Row(1812, "Toronto", "CAN", "Ontario", 688275),
      Row(1538, "Kobe", "JPN", "Hyogo", 1425139)]
    ensures PopulationSum(cities) == map["USA" := 3485157, "JPN" := 1866788, "CAN" := 688275]
  {
    var m1 := AddCity(map[], cities[0]);
    assert m1 == map["JPN" := 441649];
    var m2 := AddCity(m1, cities[1]);
    assert m2 == map["JPN" := 441649, "USA" := 2896016];
    var m3 := AddCity(m2, cities[2]);
    assert m3 == map["JPN" := 441649, "USA" := 3485157];
    var m4 := AddCity(m3, cities[3]);
    assert m4 == map["JPN" := 441649, "USA" := 3485157, "CAN" := 688275];
    assert AddCity(m4, cities[4]) == map["USA" := 3485157, "JPN" := 1866788, "CAN" := 688275];
    PopulationSumOfFive(cities);
  }

  /** A city whose country code is NULL is left out of every total. */
  lemma InvalidCodeExample()
    ensures PopulationSum([
      Row(3793, "New York", "USA", "New York", 8008278),
      City(3812, NullString("Boston", true), NullString("", false),
           NullString("Massachusetts", true), NullInt64(589141, true))])
      == map["USA" := 8008278]
  {
  }

  /** calculatePopulationSumHandler: the loop over the rows, updating the map in place. */
  method CalculatePopulationSum(cities: seq<City>) returns (output: map<string, int>)
    ensures output == PopulationSum(cities)
    ensures output.Keys == ValidCodes(cities)
    ensures forall code :: code in output ==> output[code] == CodeTotal(cities, code)
  {
    output := map[];
    for i := 0 to |cities|
      invariant output == PopulationSum(cities[..i])
    {
      assert cities[..i + 1][..i] == cities[..i];
      var city := cities[i];
      if city.countryCode.valid {
        var code := city.countryCode.str;
        output := output[code := (if code in output then output[code] else 0) + city.population.int64];
      }
    }
    assert cities[..|cities|] == cities;
    PopulationSumCharacterized(cities);
  }
}
