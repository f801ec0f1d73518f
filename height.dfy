/**
 * The measure plugins: a per-name cache of generated measures that expires
 * after fifteen minutes, the `rating` command that defaults to the author's
 * name, and the feet-and-inches rendering of a height.
 */
module Height {
  import opened Wrappers
  import opened Strings

  // ----- feet and inches -----

  /** `divmod(inches, 12)`: Python floors, which for a positive divisor is Dafny's Euclidean division. */
  function FeetInches(inches: int): (r: (int, int))
    ensures 0 <= r.1 < 12
    ensures 12 * r.0 + r.1 == inches
  {
    (inches / 12, inches % 12)
  }

  /** The split into feet and inches is the only one with the inch part in [0, 12). */
  lemma FeetInchesUnique(inches: int, feet: int, rest: int)
    requires 0 <= rest < 12 && 12 * feet + rest == inches
    ensures FeetInches(inches) == (feet, rest)
  {
  }

  /** Adding a foot adds one to the feet and leaves the inches. */
  lemma FeetInchesShift(inches: int)
    ensures FeetInches(inches + 12) == (FeetInches(inches).0 + 1, FeetInches(inches).1)
  {
    var (f, i) := FeetInches(inches);
    FeetInchesUnique(inches + 12, f + 1, i);
  }

  /** Two numbers written around `' ` and followed by `"` are read back by `int()` as they were. */
  lemma ReadsBack(f: int, i: int)
    ensures var feet := IntToString(f);
      var r := feet + "' " + IntToString(i) + "\"";
      && 0 < |feet| && |feet| + 3 <= |r| && r[|feet|..|feet| + 2] == "' " && r[|r| - 1] == '"'
      && ParseInt(r[..|feet|]) == Some(f) && ParseInt(r[|feet| + 2..|r| - 1]) == Some(i)
  {
    var feet := IntToString(f);
    var inch := IntToString(i);
    var r := feet + "' " + inch + "\"";
    assert r[..|feet|] == feet;
    assert r[|feet| + 2..|r| - 1] == inch;
    assert r[|feet|..|feet| + 2] == "' ";
    assert ParseInt(r[..|feet|]) == Some(f) by {
      ParseIntRoundTrip(f);
    }
    assert ParseInt(r[|feet| + 2..|r| - 1]) == Some(i) by {
      ParseIntRoundTrip(i);
    }
  }

  /**
   * `imperial(inches)`: feet, an apostrophe and a space, the inches, a double
   * quote; the two numbers read back with `int()` are the feet and inches.
   */
  function Imperial(inches: int): (r: string)
    ensures exists k :: (0 < k && k + 3 <= |r| && r[k..k + 2] == "' " && r[|r| - 1] == '"' &&
      ParseInt(r[..k]) == Some(FeetInches(inches).0) && ParseInt(r[k + 2..|r| - 1]) == Some(FeetInches(inches).1))
  {
    var (f, i) := FeetInches(inches);
    ReadsBack(f, i);
    IntToString(f) + "' " + IntToString(i) + "\""
  }

  /** The inch part is one or two digits, so the rendering ends in them and the quote. */
  lemma ImperialInches(inches: int)
    ensures var i := FeetInches(inches).1;
      var r := Imperial(inches);
      var d := NatToString(i);
      |d| == (if i < 10 then 1 else 2) && |r| > |d| + 2 && r[|r| - |d| - 1..|r| - 1] == d && r[|r| - 1] == '"'
  {
    var i := FeetInches(inches).1;
    var d := NatToString(i);
    if i >= 10 {
      assert NatToString(i / 10) == [DigitChar(i / 10)];
    }
  }

  // ----- the cached measure -----

  /** `cache_time`: fifteen minutes, in seconds. */
  const CacheTime: real := 15.0 * 60.0

  /** An entry is reused unless it is missing or its timestamp is older than `now - cache_time`. */
  predicate Stale<T>(cache: map<string, (T, real)>, name: string, now: real) {
    name !in cache || cache[name].1 < now - CacheTime
  }

  /**
   * `_get_measure(name)` as a function of the cache: the value returned and
   * the cache afterwards. `now` is the clock when the entry is checked,
   * `fetched` what `get_measure` yields and `stamp` the clock once it has.
   */
  function Measured<T>(cache: map<string, (T, real)>, name: string, now: real, fetched: T, stamp: real)
    : (r: (T, map<string, (T, real)>))
    ensures name in r.1 && r.1[name].0 == r.0
    ensures forall other :: other != name ==> (other in r.1 <==> other in cache)
    ensures forall other :: other != name && other in cache ==> r.1[other] == cache[other]
    ensures Stale(cache, name, now) ==> r.0 == fetched && r.1[name].1 == stamp
    ensures !Stale(cache, name, now) ==> r.0 == cache[name].0 && r.1 == cache
  {
    if Stale(cache, name, now) then (fetched, cache[name := (fetched, stamp)]) else (cache[name].0, cache)
  }

  /**
   * A second lookup of the same name reuses the first one's value exactly
   * when the entry left behind is not older than the window.
   */
  lemma SecondLookup<T>(cache: map<string, (T, real)>, name: string, now: real, fetched: T, stamp: real,
                        later: real, again: T, stamp2: real)
    ensures var (v, c) := Measured(cache, name, now, fetched, stamp);
      var (w, d) := Measured(c, name, later, again, stamp2);
      && (c[name].1 >= later - CacheTime ==> w == v && d == c)
      && (c[name].1 < later - CacheTime ==> w == again && d == c[name := (again, stamp2)])
  {
  }

  /** Within the window after a fresh fetch, the fetched value is served. */
  lemma FreshFetchServed<T>(cache: map<string, (T, real)>, name: string, now: real, fetched: T, stamp: real,
                            later: real, again: T, stamp2: real)
    requires Stale(cache, name, now)
    requires later <= stamp + CacheTime
    ensures Measured(Measured(cache, name, now, fetched, stamp).1, name, later, again, stamp2).0 == fetched
  {
    SecondLookup(cache, name, now, fetched, stamp, later, again, stamp2);
  }

  /** `command_rating`'s name: the text itself unless it is blank, then the author's name. */
  function RatingName(text: string, author: string): (r: string)
    ensures IsBlank(text) ==> r == author
    ensures !IsBlank(text) ==> r == text
  {
    StripBlank(text);
    if Strip(text) != [] then text else author
  }

  /** `s.strip()` is empty exactly when `s` is all whitespace. */
  lemma StripBlank(s: string)
    ensures Strip(s) == [] <==> IsBlank(s)
  {
    var i := SkipSpace(s, 0);
    var j := BackSpace(s, |s|);
    if !IsBlank(s) {
      var k :| 0 <= k < |s| && !IsSpace(s[k]);
      SkipSpaceSkips(s, 0);
      assert i <= k;
      assert k < j;
    }
  }

  /** A measure plugin with its cache; `T` is the kind of measure. */
  class MeasurePlugin<T> {
    var cache: map<string, (T, real)>

    constructor ()
      ensures cache == map[]
    {
      cache := map[];
    }

    /** `_get_measure(name)`. */
    method GetMeasure(name: string, now: real, fetched: T, stamp: real) returns (value: T)
      modifies this
      ensures (value, cache) == Measured(old(cache), name, now, fetched, stamp)
    {
      if name !in cache || cache[name].1 < now - CacheTime {
        cache := cache[name := (fetched, stamp)];
      }
      value := cache[name].0;
    }

    /** `command_rating(text, message)`: the name asked about and its measure, before formatting. */
    method CommandRating(text: string, author: string, now: real, fetched: T, stamp: real)
      returns (name: string, measure: T)
      modifies this
      ensures name == RatingName(text, author)
      ensures (measure, cache) == Measured(old(cache), name, now, fetched, stamp)
    {
      name := if Strip(text) != [] then text else author;
      measure := GetMeasure(name, now, fetched, stamp);
    }
  }
}
