/** The phone-number field: country flags, the ordered and searchable
    country list, digit cleaning and the formatted number it reports.
    The libphonenumber country list, calling codes and parser, and the
    locale's name collation, are inputs. */
module PhoneInput {
  import opened Common
  import opened Strings

  // ---------------------------------------------------------------- flags

  /** `127397 + charCodeAt(0)` takes 'A' to U+1F1E6, the regional indicator A. */
  const FLAG_OFFSET: int := 127397

  predicate IsAscii(s: string) {
    forall i :: 0 <= i < |s| ==> s[i] as int < 128
  }

  function FlagChar(c: char): char
    requires c as int < 128
  {
    (FLAG_OFFSET + c as int) as char
  }

  /** `getFlagEmoji(code)`, for an ASCII code (one `split("")` unit per character). */
  function FlagEmoji(code: string): (r: string)
    requires IsAscii(code)
    ensures |r| == |code|
    ensures forall i :: 0 <= i < |r| ==> r[i] as int == FLAG_OFFSET + UpperChar(code[i]) as int
    ensures forall i :: 0 <= i < |r| ==> FLAG_OFFSET <= r[i] as int < FLAG_OFFSET + 128
  {
    if code == [] then [] else [FlagChar(UpperChar(code[0]))] + FlagEmoji(code[1..])
  }

  /** Reads the letters back out of a flag. */
  function FlagLetters(flag: string): string
    requires forall i :: 0 <= i < |flag| ==> FLAG_OFFSET <= flag[i] as int < FLAG_OFFSET + 128
  {
    if flag == [] then [] else [(flag[0] as int - FLAG_OFFSET) as char] + FlagLetters(flag[1..])
  }

  /** A flag names its code, upper-cased: codes differing other than in
      letter case get different flags. */
  lemma {:induction false} FlagRoundTrip(code: string)
    requires IsAscii(code)
    ensures FlagLetters(FlagEmoji(code)) == ToUpper(code)
  {
    if code != [] {
      FlagRoundTrip(code[1..]);
      assert FlagEmoji(code)[1..] == FlagEmoji(code[1..]);
    }
  }

  /** Letters become regional indicator symbols, U+1F1E6 for 'A' to U+1F1FF for 'Z'. */
  lemma FlagIsRegionalIndicators(code: string)
    requires forall i :: 0 <= i < |code| ==> 'A' <= code[i] <= 'Z' || 'a' <= code[i] <= 'z'
    ensures IsAscii(code)
    ensures forall i :: 0 <= i < |code| ==> '\U{1F1E6}' <= FlagEmoji(code)[i] <= '\U{1F1FF}'
  {
    assert IsAscii(code);
    var f := FlagEmoji(code);
    forall i | 0 <= i < |code| ensures '\U{1F1E6}' <= f[i] <= '\U{1F1FF}' {
      assert 'A' <= UpperChar(code[i]) <= 'Z';
    }
  }

  /** Letter case does not change a flag. */
  lemma {:induction false} FlagIgnoresCase(code: string)
    requires IsAscii(code)
    ensures IsAscii(ToUpper(code)) && FlagEmoji(code) == FlagEmoji(ToUpper(code))
  {
    if code != [] {
      FlagIgnoresCase(code[1..]);
      assert ToUpper(code)[1..] == ToUpper(code[1..]);
    }
  }

  // ---------------------------------------------------------------- country data

  /** `COUNTRY_NAMES`. */
  function CountryNameOf(code: string): Option<string> {
    match code
    case "US" => Some("United States")
    case "GB" => Some("United Kingdom")
    case "CA" => Some("Canada")
    case "AU" => Some("Australia")
    case "TR" => Some("Turkey")
    case "DE" => Some("Germany")
    case "FR" => Some("France")
    case "ES" => Some("Spain")
    case "IT" => Some("Italy")
    case "NL" => Some("Netherlands")
    case "BE" => Some("Belgium")
    case "AT" => Some("Austria")
    case "CH" => Some("Switzerland")
    case "SE" => Some("Sweden")
    case "NO" => Some("Norway")
    case "DK" => Some("Denmark")
    case "FI" => Some("Finland")
    case "PL" => Some("Poland")
    case "PT" => Some("Portugal")
    case "GR" => Some("Greece")
    case "IE" => Some("Ireland")
    case "NZ" => Some("New Zealand")
    case "JP" => Some("Japan")
    case "KR" => Some("South Korea")
    case "CN" => Some("China")
    case "IN" => Some("India")
    case "BR" => Some("Brazil")
    case "MX" => Some("Mexico")
    case "AR" => Some("Argentina")
    case "CO" => Some("Colombia")
    case "CL" => Some("Chile")
    case "PE" => Some("Peru")
    case "ZA" => Some("South Africa")
    case "EG" => Some("Egypt")
    case "NG" => Some("Nigeria")
    case "KE" => Some("Kenya")
    case "AE" => Some("United Arab Emirates")
    case "SA" => Some("Saudi Arabia")
    case "IL" => Some("Israel")
    case "RU" => Some("Russia")
    case "UA" => Some("Ukraine")
    case "PH" => Some("Philippines")
    case "ID" => Some("Indonesia")
    case "MY" => Some("Malaysia")
    case "SG" => Some("Singapore")
    case "TH" => Some("Thailand")
    case "VN" => Some("Vietnam")
    case "PK" => Some("Pakistan")
    case "BD" => Some("Bangladesh")
    case "HK" => Some("Hong Kong")
    case "TW" => Some("Taiwan")
    case _ => None
  }

  /** The name shown: the table's, else the code itself. */
  function CountryName(code: string): (r: string)
    ensures CountryNameOf(code).Some? ==> r == CountryNameOf(code).value
    ensures CountryNameOf(code).None? ==> r == code
  {
    OrText(CountryNameOf(code), code)
  }

  datatype Country = Country(code: string, name: string, dialCode: string, flag: string)

  /** One entry of `allCountries` before sorting; `callingCode` is
      libphonenumber's `getCountryCallingCode`. */
  function MakeCountry(code: string, callingCode: string -> string): (c: Country)
    requires IsAscii(code)
    ensures c.code == code && c.name == CountryName(code)
    ensures StartsWith(c.dialCode, "+") && c.dialCode[1..] == callingCode(code)
    ensures IsAscii(code) && c.flag == FlagEmoji(code) && FlagLetters(c.flag) == ToUpper(code)
  {
    FlagRoundTrip(code);
    Country(code, CountryName(code), "+" + callingCode(code), FlagEmoji(code))
  }

  function MakeCountries(codes: seq<string>, callingCode: string -> string): (r: seq<Country>)
    requires forall i :: 0 <= i < |codes| ==> IsAscii(codes[i])
    ensures |r| == |codes|
    ensures forall i :: 0 <= i < |codes| ==> r[i] == MakeCountry(codes[i], callingCode)
  {
    if codes == [] then [] else [MakeCountry(codes[0], callingCode)] + MakeCountries(codes[1..], callingCode)
  }

  // ---------------------------------------------------------------- ordering

  const COMMON_COUNTRIES: seq<string> := ["US", "GB", "CA", "AU", "TR", "DE", "FR", "ES", "IT", "NL"]

  /** `COMMON_COUNTRIES.indexOf(code)`: -1 when absent. */
  function CommonIndex(code: string): (r: int)
    ensures -1 <= r < |COMMON_COUNTRIES|
    ensures r >= 0 ==> COMMON_COUNTRIES[r] == code && forall j :: 0 <= j < r ==> COMMON_COUNTRIES[j] != code
    ensures r == -1 <==> code !in COMMON_COUNTRIES
  {
    match FindIndex(COMMON_COUNTRIES, (x: string) => x == code)
    case None => -1
    case Some(i) => i
  }

  predicate IsCommon(c: Country) {
    CommonIndex(c.code) != -1
  }

  /** The `sort` comparator. `collate` stands for `localeCompare` on names:
      `a.localeCompare(b)` has the sign of `collate(a) - collate(b)`. */
  function Compare(a: Country, b: Country, collate: string -> int): int {
    var ai := CommonIndex(a.code);
    var bi := CommonIndex(b.code);
    if ai != -1 && bi != -1 then ai - bi
    else if ai != -1 then -1
    else if bi != -1 then 1
    else collate(a.name) - collate(b.name)
  }

  /** The order the comparator describes, on keys: the tier first, then the
      position in `COMMON_COUNTRIES` or the collated name. */
  function SortKey(c: Country, collate: string -> int): (int, int) {
    var i := CommonIndex(c.code);
    if i != -1 then (0, i) else (1, collate(c.name))
  }

  predicate KeyBefore(a: (int, int), b: (int, int)) {
    a.0 < b.0 || (a.0 == b.0 && a.1 <= b.1)
  }

  /** The source's comparator agrees with the key order, in both directions. */
  lemma CompareIsKeyOrder(a: Country, b: Country, collate: string -> int)
    ensures Compare(a, b, collate) <= 0 <==> KeyBefore(SortKey(a, collate), SortKey(b, collate))
    ensures Compare(a, b, collate) < 0 <==> !KeyBefore(SortKey(b, collate), SortKey(a, collate))
  {
  }

  predicate SortedBy<T>(s: seq<T>, key: T -> (int, int)) {
    forall i, j :: 0 <= i < j < |s| ==> KeyBefore(key(s[i]), key(s[j]))
  }

  /** Inserts `x` after every entry whose key is not above its own (keeps the sort stable). */
  function InsertBy<T>(x: T, s: seq<T>, key: T -> (int, int)): seq<T> {
    if s == [] then [x]
    else if !KeyBefore(key(s[0]), key(x)) then [x] + s
    else [s[0]] + InsertBy(x, s[1..], key)
  }

  /** Inserting adds exactly `x`. */
  lemma {:induction false} InsertByAddsOne<T>(x: T, s: seq<T>, key: T -> (int, int))
    ensures multiset(InsertBy(x, s, key)) == multiset(s) + multiset{x}
  {
    if s != [] && KeyBefore(key(s[0]), key(x)) {
      InsertByAddsOne(x, s[1..], key);
      assert s == [s[0]] + s[1..];
    }
  }

  /** A lower bound of `x` and of every entry of `s` bounds every entry of the insertion. */
  lemma {:induction false} InsertKeepsBound<T>(x: T, s: seq<T>, key: T -> (int, int), b: (int, int))
    requires KeyBefore(b, key(x))
    requires forall k :: 0 <= k < |s| ==> KeyBefore(b, key(s[k]))
    ensures forall k :: 0 <= k < |InsertBy(x, s, key)| ==> KeyBefore(b, key(InsertBy(x, s, key)[k]))
  {
    if s != [] && KeyBefore(key(s[0]), key(x)) {
      InsertKeepsBound(x, s[1..], key, b);
    }
  }

  lemma {:induction false} InsertSorted<T>(x: T, s: seq<T>, key: T -> (int, int))
    requires SortedBy(s, key)
    ensures SortedBy(InsertBy(x, s, key), key)
    ensures multiset(InsertBy(x, s, key)) == multiset(s) + multiset{x}
  {
    InsertByAddsOne(x, s, key);
    if s != [] && KeyBefore(key(s[0]), key(x)) {
      var tail := s[1..];
      InsertSorted(x, tail, key);
      InsertKeepsBound(x, tail, key, key(s[0]));
      var r := InsertBy(x, tail, key);
      var full := [s[0]] + r;
      forall i, j | 0 <= i < j < |full| ensures KeyBefore(key(full[i]), key(full[j])) {
        if i > 0 {
          assert full[i] == r[i - 1] && full[j] == r[j - 1];
        } else {
          assert full[j] == r[j - 1];
        }
      }
    } else if s != [] {
      var full := [x] + s;
      forall i, j | 0 <= i < j < |full| ensures KeyBefore(key(full[i]), key(full[j])) {
        if i > 0 {
          assert full[i] == s[i - 1] && full[j] == s[j - 1];
        } else {
          assert full[j] == s[j - 1];
          assert KeyBefore(key(s[0]), key(s[j - 1])) || j - 1 == 0;
        }
      }
    }
  }

  /** `array.sort(compare)` (stable, as ECMAScript requires), by insertion. */
  function SortBy<T>(s: seq<T>, key: T -> (int, int)): (r: seq<T>)
    ensures SortedBy(r, key)
    ensures multiset(r) == multiset(s)
  {
    if s == [] then []
    else
      var front := s[..|s| - 1];
      var sorted := SortBy(front, key);
      InsertSorted(s[|s| - 1], sorted, key);
      assert s == front + [s[|s| - 1]];
      InsertBy(s[|s| - 1], sorted, key)
  }

  function CountryKey(collate: string -> int): Country -> (int, int) {
    (c: Country) => SortKey(c, collate)
  }

  predicate Sorted(s: seq<Country>, collate: string -> int) {
    forall i, j :: 0 <= i < j < |s| ==> Compare(s[i], s[j], collate) <= 0
  }

  lemma SortedByKey(s: seq<Country>, collate: string -> int)
    requires SortedBy(s, CountryKey(collate))
    ensures Sorted(s, collate)
  {
    forall i, j | 0 <= i < j < |s| ensures Compare(s[i], s[j], collate) <= 0 {
      CompareIsKeyOrder(s[i], s[j], collate);
    }
  }

  /** `allCountries`: every country libphonenumber lists, the common ones
      first in `COMMON_COUNTRIES` order, then the rest by collated name. */
  function AllCountries(codes: seq<string>, callingCode: string -> string, collate: string -> int): (r: seq<Country>)
    requires forall i :: 0 <= i < |codes| ==> IsAscii(codes[i])
    ensures multiset(r) == multiset(MakeCountries(codes, callingCode))
    ensures forall i, j :: 0 <= i < j < |r| && IsCommon(r[j]) ==> IsCommon(r[i])
    ensures forall i, j :: 0 <= i < j < |r| && IsCommon(r[i]) && IsCommon(r[j]) ==>
      CommonIndex(r[i].code) <= CommonIndex(r[j].code)
    ensures forall i, j :: 0 <= i < j < |r| && !IsCommon(r[i]) && !IsCommon(r[j]) ==>
      collate(r[i].name) <= collate(r[j].name)
  {
    var r := SortBy(MakeCountries(codes, callingCode), CountryKey(collate));
    KeyOrderTiers(r, collate);
    r
  }

  /** What the key order means for countries: common before the rest, the
      common ones by their position, the rest by collated name. */
  lemma KeyOrderTiers(r: seq<Country>, collate: string -> int)
    requires SortedBy(r, CountryKey(collate))
    ensures forall i, j :: 0 <= i < j < |r| && IsCommon(r[j]) ==> IsCommon(r[i])
    ensures forall i, j :: 0 <= i < j < |r| && IsCommon(r[i]) && IsCommon(r[j]) ==>
      CommonIndex(r[i].code) <= CommonIndex(r[j].code)
    ensures forall i, j :: 0 <= i < j < |r| && !IsCommon(r[i]) && !IsCommon(r[j]) ==>
      collate(r[i].name) <= collate(r[j].name)
  {
    forall i, j | 0 <= i < j < |r|
      ensures KeyBefore(SortKey(r[i], collate), SortKey(r[j], collate))
    {
      assert CountryKey(collate)(r[i]) == SortKey(r[i], collate);
      assert CountryKey(collate)(r[j]) == SortKey(r[j], collate);
    }
  }

  // ---------------------------------------------------------------- search

  /** Whether a country matches the lower-cased query. */
  predicate Matches(c: Country, query: string) {
    Contains(ToLower(c.name), query) || Contains(c.dialCode, query) || Contains(ToLower(c.code), query)
  }

  function MatchesQuery(query: string): Country -> bool {
    (c: Country) => Matches(c, query)
  }

  /** `filteredCountries`. */
  function FilteredCountries(all: seq<Country>, searchQuery: string): (r: seq<Country>)
    ensures searchQuery == "" ==> r == all
    ensures searchQuery != "" ==> forall c :: c in r <==> c in all && Matches(c, ToLower(searchQuery))
    ensures |r| <= |all|
  {
    if searchQuery == "" then all else Filter(all, MatchesQuery(ToLower(searchQuery)))
  }

  /** The search keeps countries one by one in their listed order: the result
      on a concatenated list is the concatenation of the two results, ... */
  lemma FilteredCountriesConcat(a: seq<Country>, b: seq<Country>, searchQuery: string)
    ensures FilteredCountries(a + b, searchQuery) == FilteredCountries(a, searchQuery) + FilteredCountries(b, searchQuery)
  {
    if searchQuery != "" {
      FilterConcat(a, b, MatchesQuery(ToLower(searchQuery)));
    }
  }

  /** ... and a single country stays exactly when the query is empty or it matches. */
  lemma FilteredCountriesSingle(c: Country, searchQuery: string)
    ensures FilteredCountries([c], searchQuery) ==
      if searchQuery == "" || Matches(c, ToLower(searchQuery)) then [c] else []
  {
    assert [c][1..] == [];
  }

  /** The head of a sorted list comes before everything after it. */
  lemma HeadBeforeTail<T>(s: seq<T>, key: T -> (int, int))
    requires SortedBy(s, key) && s != []
    ensures forall y :: y in s[1..] ==> KeyBefore(key(s[0]), key(y))
  {
    forall y | y in s[1..] ensures KeyBefore(key(s[0]), key(y)) {
      var j :| 0 <= j < |s[1..]| && s[1..][j] == y;
      assert s[1 + j] == y;
    }
  }

  /** A sorted list stays sorted under an entry that comes before all of it. */
  lemma ConsSorted<T>(x: T, t: seq<T>, key: T -> (int, int))
    requires SortedBy(t, key)
    requires forall y :: y in t ==> KeyBefore(key(x), key(y))
    ensures SortedBy([x] + t, key)
  {
    var full := [x] + t;
    forall i, j | 0 <= i < j < |full| ensures KeyBefore(key(full[i]), key(full[j])) {
      assert full[j] == t[j - 1];
      if i > 0 {
        assert full[i] == t[i - 1];
      }
    }
  }

  /** Filtering keeps a list in sorted order. */
  lemma {:induction false} FilterKeepsSorted<T(!new)>(s: seq<T>, p: T -> bool, key: T -> (int, int))
    requires SortedBy(s, key)
    ensures SortedBy(Filter(s, p), key)
  {
    if s != [] {
      var tail := s[1..];
      assert SortedBy(tail, key);
      FilterKeepsSorted(tail, p, key);
      var ft := Filter(tail, p);
      if p(s[0]) {
        assert Filter(s, p) == [s[0]] + ft;
        HeadBeforeTail(s, key);
        ConsSorted(s[0], ft, key);
      } else {
        assert Filter(s, p) == ft;
      }
    }
  }

  /** A search result keeps the order of `allCountries`. */
  lemma FilteredStaysSorted(all: seq<Country>, searchQuery: string, collate: string -> int)
    requires SortedBy(all, CountryKey(collate))
    ensures SortedBy(FilteredCountries(all, searchQuery), CountryKey(collate))
    ensures Sorted(FilteredCountries(all, searchQuery), collate)
  {
    if searchQuery != "" {
      FilterKeepsSorted(all, MatchesQuery(ToLower(searchQuery)), CountryKey(collate));
    }
    SortedByKey(FilteredCountries(all, searchQuery), collate);
  }

  // ---------------------------------------------------------------- the field

  /** `selectedCountryData`. */
  function SelectedCountryData(all: seq<Country>, code: string): (r: Option<Country>)
    ensures r.Some? ==> r.value in all && r.value.code == code
    ensures r.None? <==> forall c :: c in all ==> c.code != code
    ensures r.Some? ==> exists i :: 0 <= i < |all| && all[i] == r.value && forall j :: 0 <= j < i ==> all[j].code != code
  {
    Find(all, (c: Country) => c.code == code)
  }

  /** What the field reports as the formatted number: libphonenumber's E.164
      form when `parse` recognises the full number, else the full number. */
  function Formatted(fullNumber: string, parse: string -> Option<string>): (r: string)
    ensures parse(fullNumber).None? ==> r == fullNumber
    ensures parse(fullNumber).Some? ==> r == parse(fullNumber).value
  {
    parse(fullNumber).GetOr(fullNumber)
  }

  /** `handlePhoneChange(text)`: the digits passed to `onChangeText` and the
      text passed to `onChangeFormattedText`. Without a selected country the
      template prints "undefined" before the digits. */
  function PhoneChange(text: string, selected: Option<Country>, parse: string -> Option<string>): (r: (string, string))
    ensures r.0 == KeepDigits(text)
    ensures AllDigits(r.0) && (forall c :: c in r.0 <==> c in text && IsDigit(c))
    ensures var full := (if selected.Some? then selected.value.dialCode else "undefined") + r.0;
      r.1 == Formatted(full, parse)
  {
    var cleaned := KeepDigits(text);
    var dial := if selected.Some? then selected.value.dialCode else "undefined";
    (cleaned, Formatted(dial + cleaned, parse))
  }

  /** Cleaning is idempotent: already-clean input reaches `onChangeText` unchanged. */
  lemma PhoneChangeCleanIdempotent(text: string, selected: Option<Country>, parse: string -> Option<string>)
    ensures PhoneChange(PhoneChange(text, selected, parse).0, selected, parse) == PhoneChange(text, selected, parse)
  {
    FilterIdempotent(text, IsDigit);
  }

  /** The field's own state. */
  class PhoneField {
    var selectedCountry: string
    var showPicker: bool
    var searchQuery: string

    constructor (defaultCountry: string)
      ensures selectedCountry == defaultCountry && !showPicker && searchQuery == ""
    {
      selectedCountry := defaultCountry;
      showPicker := false;
      searchQuery := "";
    }

    /** The countries the picker lists. */
    function Visible(all: seq<Country>): seq<Country>
      reads this
    {
      FilteredCountries(all, searchQuery)
    }

    /** The country button: opens the picker. */
    method OpenPicker()
      modifies this`showPicker
      ensures showPicker
    {
      showPicker := true;
    }

    /** The close button and the modal's back request. */
    method ClosePicker()
      modifies this`showPicker
      ensures !showPicker
    {
      showPicker := false;
    }

    /** Typing in the picker's search box. */
    method SetSearchQuery(query: string)
      modifies this`searchQuery
      ensures searchQuery == query
    {
      searchQuery := query;
    }

    /** `handleCountrySelect(country)`: selects the country, closes and clears
        the picker, and reformats the current digits `value` with the new
        dial code. */
    method HandleCountrySelect(country: Country, value: string, parse: string -> Option<string>, all: seq<Country>)
      returns (formatted: string)
      modifies this
      ensures selectedCountry == country.code && !showPicker && searchQuery == ""
      ensures Visible(all) == all
      ensures formatted == Formatted(country.dialCode + value, parse)
    {
      selectedCountry := country.code;
      showPicker := false;
      searchQuery := "";
      formatted := Formatted(country.dialCode + value, parse);
    }
  }
}
