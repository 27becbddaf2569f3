/**
 * The city registry: the fixed table of 22 city codes and the names the
 * weather provider knows them by, the case-insensitive lookup of a code, and
 * the two lists derived from the table (the `availableCities` codes and the
 * `{code, name}` list of the cities endpoint), both in declaration order.
 */
module CityRegistry {
  import opened Optional

  /** The table, in declaration order. */
  const CityMap: seq<(string, string)> := [
    ("taipei", "臺北市"),
    ("newtaipei", "新北市"),
    ("keelung", "基隆市"),
    ("taoyuan", "桃園市"),
    ("hsinchu", "新竹市"),
    ("hsinchucounty", "新竹縣"),
    ("miaoli", "苗栗縣"),
    ("taichung", "臺中市"),
    ("changhua", "彰化縣"),
    ("nantou", "南投縣"),
    ("yunlin", "雲林縣"),
    ("chiayi", "嘉義市"),
    ("chiayicounty", "嘉義縣"),
    ("tainan", "臺南市"),
    ("kaohsiung", "高雄市"),
    ("pingtung", "屏東縣"),
    ("yilan", "宜蘭縣"),
    ("hualien", "花蓮縣"),
    ("taitung", "臺東縣"),
    ("penghu", "澎湖縣"),
    ("kinmen", "金門縣"),
    ("lienchiang", "連江縣")
  ]

  /** One entry of the cities endpoint's list. */
  datatype City = City(code: string, name: string)

  // ---------------------------------------------------------------------
  // Lower-casing

  /**
   * `toLowerCase` on one character, as far as it matters here: ASCII capitals
   * and the KELVIN SIGN (U+212A, whose lower case is 'k') are the only
   * characters whose lower case is an ASCII letter; every other character is
   * kept, and none of those can occur in a registry key.
   */
  function LowerChar(c: char): char {
    if 'A' <= c <= 'Z' then (c as int + 32) as char
    else if c == '\U{212A}' then 'k'
    else c
  }

  function ToLower(s: string): (r: string)
    ensures |r| == |s|
    ensures forall i :: 0 <= i < |s| ==> r[i] == LowerChar(s[i])
  {
    if s == [] then [] else [LowerChar(s[0])] + ToLower(s[1..])
  }

  /** Lower-casing twice is lower-casing once. */
  lemma ToLowerIdempotent(s: string)
    ensures ToLower(ToLower(s)) == ToLower(s)
  {
    var r := ToLower(s);
    assert forall i :: 0 <= i < |r| ==> LowerChar(r[i]) == r[i];
  }

  /** A word of ASCII lower-case letters. */
  predicate IsLowerWord(s: string) {
    forall k :: 0 <= k < |s| ==> 'a' <= s[k] <= 'z'
  }

  /** Lower-casing keeps such a word as it is. */
  lemma LowerWordFixed(s: string)
    requires IsLowerWord(s)
    ensures ToLower(s) == s
  {
    var r := ToLower(s);
    assert forall k :: 0 <= k < |s| ==> r[k] == s[k];
  }

  // ---------------------------------------------------------------------
  // The derived lists

  /** The first components of `table`, in order (`Object.keys`). */
  function KeysOf(table: seq<(string, string)>): seq<string> {
    seq(|table|, i requires 0 <= i < |table| => table[i].0)
  }

  /** The entries of `table` as `{code, name}` records, in order (`Object.entries(...).map`). */
  function EntriesOf(table: seq<(string, string)>): seq<City> {
    seq(|table|, i requires 0 <= i < |table| => City(table[i].0, table[i].1))
  }

  /** The `availableCities` list of an invalid-code response. */
  function Codes(): seq<string> {
    KeysOf(CityMap)
  }

  /** The data of the cities endpoint. */
  function CityList(): seq<City> {
    EntriesOf(CityMap)
  }

  // ---------------------------------------------------------------------
  // Lookup

  /** The name stored under `code` in `table`, searching in order. */
  function Find(table: seq<(string, string)>, code: string): (r: Option<string>)
    ensures r.Some? <==> exists i :: 0 <= i < |table| && table[i].0 == code
    ensures r.Some? ==> exists i :: 0 <= i < |table| && table[i] == (code, r.value)
  {
    if table == [] then None
    else if table[0].0 == code then Some(table[0].1)
    else
      var rest := Find(table[1..], code);
      assert forall i :: 1 <= i < |table| ==> table[i] == table[1..][i - 1];
      rest
  }

  /** The registry's own lookup of an already lower-cased code. */
  function Resolve(code: string): Option<string> {
    Find(CityMap, code)
  }

  /** Whether a request's code (in any case) names a registry city. */
  predicate IsValidCode(city: string) {
    Resolve(ToLower(city)).Some?
  }

  /** The codes are pairwise distinct, as the keys of an object literal are. */
  lemma CodesDistinct()
    ensures forall i, j :: 0 <= i < j < |CityMap| ==> CityMap[i].0 != CityMap[j].0
  {
  }

  /** The names are pairwise distinct: code and name are one-to-one. */
  lemma NamesDistinct()
    ensures forall i, j :: 0 <= i < j < |CityMap| ==> CityMap[i].1 != CityMap[j].1
  {
  }

  /** In any table, the lookup succeeds exactly on the table's keys. */
  lemma FindIffKey(table: seq<(string, string)>, code: string)
    ensures Find(table, code).Some? <==> code in KeysOf(table)
  {
    var keys := KeysOf(table);
    if code in keys {
      var i :| 0 <= i < |keys| && keys[i] == code;
      assert table[i].0 == code;
    }
    if Find(table, code).Some? {
      var i :| 0 <= i < |table| && table[i].0 == code;
      assert keys[i] == code;
    }
  }

  /** The lookup finds exactly the 22 codes. */
  lemma ResolveIffListed(code: string)
    ensures |Codes()| == 22
    ensures Resolve(code).Some? <==> code in Codes()
  {
    FindIffKey(CityMap, code);
  }

  /** A code is valid exactly when its lower-case form is one of the 22 codes. */
  lemma ValidIffListed(city: string)
    ensures IsValidCode(city) <==> ToLower(city) in Codes()
  {
    ResolveIffListed(ToLower(city));
  }

  /** Every code resolves to the name declared with it. */
  lemma ResolveListed(i: nat)
    requires i < |CityMap|
    ensures Resolve(CityMap[i].0) == Some(CityMap[i].1)
  {
    CodesDistinct();
    var r := Resolve(CityMap[i].0);
    var j :| 0 <= j < |CityMap| && CityMap[j] == (CityMap[i].0, r.value);
    assert i == j;
  }

  /** Every code is a word of ASCII lower-case letters. */
  lemma CodesAreLowerWords()
    ensures forall i :: 0 <= i < |CityMap| ==> IsLowerWord(CityMap[i].0)
  {
  }

  /** Every code is its own lower case, so a code typed as listed is accepted as it is. */
  lemma CodesAreLowerCase()
    ensures forall i :: 0 <= i < |CityMap| ==> ToLower(CityMap[i].0) == CityMap[i].0
  {
    CodesAreLowerWords();
    forall i | 0 <= i < |CityMap|
      ensures ToLower(CityMap[i].0) == CityMap[i].0
    {
      LowerWordFixed(CityMap[i].0);
    }
  }

  /**
   * Lookup is total on the table and case-insensitive: any spelling whose
   * lower case is the `i`-th code is valid and resolves to the `i`-th name.
   */
  lemma CaseInsensitiveLookup(city: string, i: nat)
    requires i < |CityMap| && ToLower(city) == CityMap[i].0
    ensures IsValidCode(city) && Resolve(ToLower(city)) == Some(CityMap[i].1)
  {
    ResolveListed(i);
  }

  /** The cities endpoint lists every entry, code and name, in declaration order. */
  lemma CityListMatchesTable()
    ensures |CityList()| == 22
    ensures forall i :: 0 <= i < 22 ==>
              CityList()[i].code == Codes()[i] && Resolve(CityList()[i].code) == Some(CityList()[i].name)
  {
    forall i | 0 <= i < 22
      ensures Resolve(CityList()[i].code) == Some(CityList()[i].name)
    {
      ResolveListed(i);
    }
  }

  /** Example: "unknown", in any case, is rejected. */
  lemma UnknownRejected(city: string)
    requires ToLower(city) == "unknown"
    ensures "unknown" !in Codes()
    ensures !IsValidCode(city)
  {
    assert forall i :: 0 <= i < |CityMap| ==> CityMap[i].0 != "unknown" by {
      forall i | 0 <= i < |CityMap|
        ensures CityMap[i].0 != "unknown"
      {
        assert CityMap[i].0[0] != 'u';
      }
    }
    ValidIffListed(city);
  }

  // ---------------------------------------------------------------------
  // The lookup as written: a property read on a plain object

  /** Properties every object literal inherits whose names are all lower case. */
  const InheritedKeys: seq<string> := ["constructor", "__proto__"]

  /** What `CITY_MAP[code]` yields: an own property, an inherited one, or `undefined`. */
  datatype Property = CityName(name: string) | InheritedMember(key: string)

  /**
   * `CITY_MAP[code]` as the source evaluates it: the prototype chain is
   * searched too, and its members are truthy, so they pass the validity check.
   */
  function PropertyLookup(code: string): (r: Option<Property>)
    ensures r.Some? <==> code in Codes() || code in InheritedKeys
    ensures Resolve(code).Some? ==> r == Some(CityName(Resolve(code).value))
  {
    ResolveIffListed(code);
    match Resolve(code)
    case Some(name) => Some(CityName(name))
    case None => if code in InheritedKeys then Some(InheritedMember(code)) else None
  }

  /**
   * The discrepancy: "constructor" (in any case) is not a city, yet the
   * source's lookup yields a truthy value for it, so its request is not
   * rejected with the list of valid codes.
   */
  lemma InheritedKeyPassesValidation(city: string)
    requires ToLower(city) == "constructor"
    ensures "constructor" !in Codes()
    ensures PropertyLookup(ToLower(city)).Some?
    ensures !IsValidCode(city)
  {
    assert ToLower(city) == InheritedKeys[0];
    assert forall i :: 0 <= i < |CityMap| ==> CityMap[i].0 != "constructor" by {
      forall i | 0 <= i < |CityMap|
        ensures CityMap[i].0 != "constructor"
      {
        assert |CityMap[i].0| != 11;
      }
    }
    ValidIffListed(city);
  }
}
