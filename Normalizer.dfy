/**
 * The forecast normaliser: it turns the provider's element-oriented payload
 * for one location into one flat record per time slice.
 *
 * The specification is the fold `FillPrefix`, which applies the elements to
 * a blank record in list order exactly as the source's `forEach` does; the
 * imperative `Normalize` is proved equal to it, and `FillPrefixIsLastWins`
 * relates the fold to the declarative reading "each field holds the value of
 * the last element of its category, or stays empty".
 */
module Normalizer {
  import opened Optional
  import opened Upstream

  /** One entry of `forecasts`. */
  datatype Interval = Interval(
    startTime: string,
    endTime: string,
    weather: string,
    rain: string,
    minTemp: string,
    maxTemp: string,
    comfort: string)

  /** The normalised result that is cached and served. */
  datatype Forecast = Forecast(city: string, updateTime: string, forecasts: seq<Interval>)

  /**
   * Normalisation either succeeds or meets a payload shape on which the
   * source throws a TypeError (no elements at all, or an element whose time
   * series is shorter than that of element 0).
   */
  datatype Normalized = Normalized(forecast: Forecast) | Malformed

  /** The record the loop starts from for one time slot of element 0. */
  function Blank(slot: TimeSlot): Interval {
    Interval(slot.startTime, slot.endTime, "", "", "", "", "")
  }

  /** The `switch` on `elementName`: fill one field, or ignore the element. */
  function Apply(f: Interval, name: string, value: string): Interval {
    if name == "Wx" then f.(weather := value)
    else if name == "PoP" then f.(rain := value + "%")
    else if name == "MinT" then f.(minTemp := value + "°C")
    else if name == "MaxT" then f.(maxTemp := value + "°C")
    else if name == "CI" then f.(comfort := value)
    else f
  }

  /** The five categories the normaliser understands. */
  predicate IsKnownName(name: string) {
    name == "Wx" || name == "PoP" || name == "MinT" || name == "MaxT" || name == "CI"
  }

  /** Every one of the first `j` elements has a slot at index `i`. */
  predicate Covers(elements: seq<WeatherElement>, j: nat, i: nat)
    requires j <= |elements|
  {
    forall k :: 0 <= k < j ==> i < |elements[k].time|
  }

  /** Every element has at least `n` slots. */
  predicate AllAtLeast(elements: seq<WeatherElement>, n: nat) {
    forall k :: 0 <= k < |elements| ==> n <= |elements[k].time|
  }

  function ValueAt(e: WeatherElement, i: nat): string
    requires i < |e.time|
  {
    e.time[i].parameter.parameterName
  }

  /** The first `j` elements applied, in list order, to `f` at slot `i`. */
  function FillPrefix(f: Interval, elements: seq<WeatherElement>, j: nat, i: nat): Interval
    requires j <= |elements| && Covers(elements, j, i)
    decreases j
  {
    if j == 0 then f
    else Apply(FillPrefix(f, elements, j - 1, i), elements[j - 1].elementName, ValueAt(elements[j - 1], i))
  }

  /** The record the source pushes for slot `i`. */
  function IntervalAt(elements: seq<WeatherElement>, i: nat): Interval
    requires |elements| > 0 && Covers(elements, |elements|, i)
  {
    FillPrefix(Blank(elements[0].time[i]), elements, |elements|, i)
  }

  /** The records for slots `0 .. n-1`, in index order. */
  function Intervals(elements: seq<WeatherElement>, n: nat): seq<Interval>
    requires |elements| > 0 && AllAtLeast(elements, n)
  {
    if n == 0 then [] else Intervals(elements, n - 1) + [IntervalAt(elements, n - 1)]
  }

  /** Some element has fewer slots than element 0 (the loop would read past its end). */
  predicate HasShortElement(elements: seq<WeatherElement>)
    requires |elements| > 0
  {
    exists k :: 0 <= k < |elements| && |elements[k].time| < |elements[0].time|
  }

  /** What normalising `loc`, with the dataset description `updateTime`, yields. */
  function NormalizeSpec(loc: Location, updateTime: string): Normalized {
    var elements := loc.weatherElement;
    if |elements| == 0 || HasShortElement(elements) then Malformed
    else Normalized(Forecast(loc.locationName, updateTime, Intervals(elements, |elements[0].time|)))
  }

  /**
   * The normaliser loop: one record per slot of element 0, each filled field
   * by field from every element in list order, then pushed.
   */
  method Normalize(loc: Location, updateTime: string) returns (r: Normalized)
    ensures r == NormalizeSpec(loc, updateTime)
  {
    var elements := loc.weatherElement;
    if |elements| == 0 {
      // weatherElements[0].time throws
      return Malformed;
    }
    var timeCount := |elements[0].time|;
    var forecasts: seq<Interval> := [];
    for i := 0 to timeCount
      invariant AllAtLeast(elements, i)
      invariant forecasts == Intervals(elements, i)
    {
      var forecast := Blank(elements[0].time[i]);
      for j := 0 to |elements|
        invariant Covers(elements, j, i)
        invariant forecast == FillPrefix(Blank(elements[0].time[i]), elements, j, i)
      {
        if |elements[j].time| <= i {
          // element.time[i] is undefined, so reading its parameter throws
          assert |elements[j].time| < |elements[0].time|;
          return Malformed;
        }
        var value := elements[j].time[i].parameter.parameterName;
        var name := elements[j].elementName;
        if name == "Wx" {
          forecast := forecast.(weather := value);
        } else if name == "PoP" {
          forecast := forecast.(rain := value + "%");
        } else if name == "MinT" {
          forecast := forecast.(minTemp := value + "°C");
        } else if name == "MaxT" {
          forecast := forecast.(maxTemp := value + "°C");
        } else if name == "CI" {
          forecast := forecast.(comfort := value);
        }
      }
      forecasts := forecasts + [forecast];
    }
    return Normalized(Forecast(loc.locationName, updateTime, forecasts));
  }

  // ---------------------------------------------------------------------
  // The declarative reading of the fold

  /** The value at slot `i` of the last of the first `j` elements named `name`. */
  function LastValue(elements: seq<WeatherElement>, j: nat, i: nat, name: string): Option<string>
    requires j <= |elements| && Covers(elements, j, i)
    decreases j
  {
    if j == 0 then None
    else if elements[j - 1].elementName == name then Some(ValueAt(elements[j - 1], i))
    else LastValue(elements, j - 1, i, name)
  }

  /** A field filled from an optional value with a unit suffix, or left as it was. */
  function FieldOr(v: Option<string>, suffix: string, otherwise: string): string {
    match v
    case Some(x) => x + suffix
    case None => otherwise
  }

  /** `LastValue` finds exactly the last matching element, or reports that none matches. */
  lemma {:induction false} LastValueIsLastMatch(elements: seq<WeatherElement>, j: nat, i: nat, name: string)
    requires j <= |elements| && Covers(elements, j, i)
    ensures LastValue(elements, j, i, name).None? <==>
              forall k :: 0 <= k < j ==> elements[k].elementName != name
    ensures LastValue(elements, j, i, name).Some? ==>
              exists k :: 0 <= k < j && elements[k].elementName == name
                && LastValue(elements, j, i, name).value == ValueAt(elements[k], i)
                && forall m :: k < m < j ==> elements[m].elementName != name
    decreases j
  {
    if j > 0 && elements[j - 1].elementName != name {
      LastValueIsLastMatch(elements, j - 1, i, name);
      var v := LastValue(elements, j - 1, i, name);
      if v.Some? {
        var k :| 0 <= k < j - 1 && elements[k].elementName == name && v.value == ValueAt(elements[k], i)
          && forall m :: k < m < j - 1 ==> elements[m].elementName != name;
        assert forall m :: k < m < j ==> elements[m].elementName != name;
      }
    }
  }

  /**
   * The fold over the first `j` elements leaves the times alone and sets
   * each field from the last element of its category (with its unit suffix),
   * keeping the starting value where no element of that category occurs.
   */
  lemma {:induction false} FillPrefixIsLastWins(f: Interval, elements: seq<WeatherElement>, j: nat, i: nat)
    requires j <= |elements| && Covers(elements, j, i)
    ensures FillPrefix(f, elements, j, i) == Interval(
      f.startTime,
      f.endTime,
      FieldOr(LastValue(elements, j, i, "Wx"), "", f.weather),
      FieldOr(LastValue(elements, j, i, "PoP"), "%", f.rain),
      FieldOr(LastValue(elements, j, i, "MinT"), "°C", f.minTemp),
      FieldOr(LastValue(elements, j, i, "MaxT"), "°C", f.maxTemp),
      FieldOr(LastValue(elements, j, i, "CI"), "", f.comfort))
    decreases j
  {
    if j > 0 {
      FillPrefixIsLastWins(f, elements, j - 1, i);
    }
  }

  /** The fold only looks at the first `j` elements. */
  lemma {:induction false} FillPrefixDependsOnPrefix(f: Interval, a: seq<WeatherElement>, b: seq<WeatherElement>, j: nat, i: nat)
    requires j <= |a| && j <= |b| && a[..j] == b[..j] && Covers(a, j, i)
    ensures Covers(b, j, i) && FillPrefix(f, a, j, i) == FillPrefix(f, b, j, i)
    decreases j
  {
    assert forall k :: 0 <= k < j ==> a[k] == a[..j][k] == b[..j][k] == b[k];
    if j > 0 {
      assert a[..j - 1] == a[..j][..j - 1] == b[..j][..j - 1] == b[..j - 1];
      FillPrefixDependsOnPrefix(f, a, b, j - 1, i);
    }
  }

  /** An element of an unknown category appended to the list changes no record. */
  lemma UnknownElementIgnored(elements: seq<WeatherElement>, u: WeatherElement, i: nat)
    requires |elements| > 0 && Covers(elements, |elements|, i)
    requires !IsKnownName(u.elementName) && i < |u.time|
    ensures Covers(elements + [u], |elements| + 1, i)
    ensures IntervalAt(elements + [u], i) == IntervalAt(elements, i)
  {
    var ext := elements + [u];
    assert ext[..|elements|] == elements[..|elements|];
    FillPrefixDependsOnPrefix(Blank(elements[0].time[i]), elements, ext, |elements|, i);
  }

  /** `Intervals` has one record per slot, record `i` being the one built for slot `i`. */
  lemma {:induction false} IntervalsAt(elements: seq<WeatherElement>, n: nat, i: nat)
    requires |elements| > 0 && AllAtLeast(elements, n) && i < n
    ensures |Intervals(elements, n)| == n
    ensures Covers(elements, |elements|, i) && Intervals(elements, n)[i] == IntervalAt(elements, i)
    decreases n
  {
    if i < n - 1 {
      IntervalsAt(elements, n - 1, i);
    } else if n > 1 {
      IntervalsAt(elements, n - 1, 0);
    }
  }

  /** The record for slot `i` as the field-by-field description states it. */
  function ReferenceInterval(elements: seq<WeatherElement>, i: nat): Interval
    requires |elements| > 0 && Covers(elements, |elements|, i)
  {
    var n := |elements|;
    Interval(
      elements[0].time[i].startTime,
      elements[0].time[i].endTime,
      FieldOr(LastValue(elements, n, i, "Wx"), "", ""),
      FieldOr(LastValue(elements, n, i, "PoP"), "%", ""),
      FieldOr(LastValue(elements, n, i, "MinT"), "°C", ""),
      FieldOr(LastValue(elements, n, i, "MaxT"), "°C", ""),
      FieldOr(LastValue(elements, n, i, "CI"), "", ""))
  }

  /**
   * Normalisation fails exactly on the shapes on which the source throws;
   * otherwise it keeps the location name and the description, yields as
   * many records as element 0 has slots, and record `i` takes its times from
   * element 0 at `i` and its fields from the last element of each category.
   */
  lemma NormalizeShape(loc: Location, updateTime: string)
    ensures NormalizeSpec(loc, updateTime).Malformed? <==>
              |loc.weatherElement| == 0 ||
              exists k :: 0 <= k < |loc.weatherElement| &&
                |loc.weatherElement[k].time| < |loc.weatherElement[0].time|
    ensures NormalizeSpec(loc, updateTime).Normalized? ==>
              var elements := loc.weatherElement;
              var f := NormalizeSpec(loc, updateTime).forecast;
              f.city == loc.locationName && f.updateTime == updateTime &&
              |f.forecasts| == |elements[0].time| &&
              forall i :: 0 <= i < |f.forecasts| ==>
                Covers(elements, |elements|, i) && f.forecasts[i] == ReferenceInterval(elements, i)
  {
    var elements := loc.weatherElement;
    if NormalizeSpec(loc, updateTime).Normalized? {
      var n := |elements[0].time|;
      var f := NormalizeSpec(loc, updateTime).forecast;
      if n > 0 {
        IntervalsAt(elements, n, 0);
      }
      forall i | 0 <= i < |f.forecasts|
        ensures Covers(elements, |elements|, i) && f.forecasts[i] == ReferenceInterval(elements, i)
      {
        IntervalsAt(elements, n, i);
        FillPrefixIsLastWins(Blank(elements[0].time[i]), elements, |elements|, i);
      }
    }
  }

  /** The worked example: one slot of each known category at index 0. */
  lemma SampleMapping(a: TimeSlot)
    ensures var elements := [
              WeatherElement("Wx", [TimeSlot(a.startTime, a.endTime, Parameter("晴"))]),
              WeatherElement("PoP", [TimeSlot(a.startTime, a.endTime, Parameter("30"))]),
              WeatherElement("MinT", [TimeSlot(a.startTime, a.endTime, Parameter("20"))]),
              WeatherElement("MaxT", [TimeSlot(a.startTime, a.endTime, Parameter("28"))]),
              WeatherElement("CI", [TimeSlot(a.startTime, a.endTime, Parameter("舒適"))])];
            Covers(elements, 5, 0) &&
            IntervalAt(elements, 0) == Interval(a.startTime, a.endTime, "晴", "30%", "20°C", "28°C", "舒適")
  {
  }
}
