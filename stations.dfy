/** The station records and the pure lookups over an ordered list of them:
    `find_station_by_short_name`, `find_station_by_long_name`,
    `find_stations_by_long_name` and `get_hafasid_from_name`, each applied
    to the list the cache holds. */
module Stations {
  import opened Wrappers
  import opened Text
  import opened Search

  /** One entry of the remote `stations` array. */
  datatype Station = Station(shortName: string, longName: string, hafasID: string)

  /** The stored short name equals `key` exactly (stored names are not
      normalised). */
  function ShortNameIs(key: string): Station -> bool {
    (st: Station) => st.shortName == key
  }

  /** The case-folded long name equals `key`. */
  function LongNameIs(key: string): Station -> bool {
    (st: Station) => Casefold(st.longName) == key
  }

  /** The case-folded long name contains `key`. */
  function LongNameContains(key: string): Station -> bool {
    (st: Station) => Contains(Casefold(st.longName), key)
  }

  /** `find_station_by_short_name`: only the query is upper-cased; the first
      station whose short name equals it wins; `None` is `StopIteration`. */
  function FindByShortName(ss: seq<Station>, name: string): (r: Option<Station>)
    ensures r.None? <==> forall i :: 0 <= i < |ss| ==> ss[i].shortName != Upper(name)
    ensures r.Some? ==> exists k :: (0 <= k < |ss| && ss[k] == r.value &&
      ss[k].shortName == Upper(name) &&
      forall j :: 0 <= j < k ==> ss[j].shortName != Upper(name))
  {
    var r := First(ss, ShortNameIs(Upper(name)));
    assert r.None? <==> forall i :: 0 <= i < |ss| ==> !ShortNameIs(Upper(name))(ss[i]);
    r
  }

  /** `find_station_by_long_name`: the first station whose case-folded long
      name equals the case-folded query. */
  function FindByLongName(ss: seq<Station>, name: string): (r: Option<Station>)
    ensures r.None? <==> forall i :: 0 <= i < |ss| ==> Casefold(ss[i].longName) != Casefold(name)
    ensures r.Some? ==> exists k :: (0 <= k < |ss| && ss[k] == r.value &&
      Casefold(ss[k].longName) == Casefold(name) &&
      forall j :: 0 <= j < k ==> Casefold(ss[j].longName) != Casefold(name))
  {
    var r := First(ss, LongNameIs(Casefold(name)));
    assert r.None? <==> forall i :: 0 <= i < |ss| ==> !LongNameIs(Casefold(name))(ss[i]);
    r
  }

  /** `find_stations_by_long_name`: every station whose case-folded long
      name contains the case-folded query, in list order. */
  function SearchByLongName(ss: seq<Station>, name: string): (r: seq<Station>)
    ensures forall i :: 0 <= i < |r| ==> Contains(Casefold(r[i].longName), Casefold(name))
    ensures forall i :: 0 <= i < |ss| && Contains(Casefold(ss[i].longName), Casefold(name)) ==> ss[i] in r
    ensures forall st :: st in r ==> st in ss
  {
    var r := Filter(ss, LongNameContains(Casefold(name)));
    assert forall i :: 0 <= i < |r| ==> LongNameContains(Casefold(name))(r[i]);
    assert forall i :: 0 <= i < |ss| && LongNameContains(Casefold(name))(ss[i]) ==> ss[i] in r;
    r
  }

  /** The result of the substring search keeps the cache's order. */
  lemma SearchIsSubsequence(ss: seq<Station>, name: string)
    ensures IsSubsequence(SearchByLongName(ss, name), ss)
  {
    FilterIsSubsequence(ss, LongNameContains(Casefold(name)));
  }

  /** A station occurs in the search result exactly as often as in the cache
      when it matches, and not at all otherwise. */
  lemma SearchCounts(ss: seq<Station>, name: string, st: Station)
    ensures multiset(SearchByLongName(ss, name))[st] ==
      if Contains(Casefold(st.longName), Casefold(name)) then multiset(ss)[st] else 0
  {
    FilterCounts(ss, LongNameContains(Casefold(name)), st);
  }

  /** The empty query matches every station. */
  lemma SearchEmptyQuery(ss: seq<Station>)
    ensures SearchByLongName(ss, "") == ss
  {
    forall i | 0 <= i < |ss| ensures LongNameContains(Casefold(""))(ss[i]) {
      EmptyContained(Casefold(ss[i].longName));
    }
    FilterAll(ss, LongNameContains(Casefold("")));
  }

  /** The exact long-name lookup finds the first station the substring
      search lists whose long name matches in full. */
  lemma {:induction false} LongNameMatchIsSearchHit(ss: seq<Station>, name: string)
    requires FindByLongName(ss, name).Some?
    ensures FindByLongName(ss, name).value in SearchByLongName(ss, name)
  {
    var k :| 0 <= k < |ss| && ss[k] == FindByLongName(ss, name).value &&
      Casefold(ss[k].longName) == Casefold(name);
    var hay := Casefold(ss[k].longName);
    assert hay[..|hay|] == hay;
  }

  /** The dispatch rule of `get_hafasid_from_name`: exactly four characters
      and `isupper()` means a short-name query. */
  function LooksLikeShortName(name: string): (b: bool)
    ensures b ==> |name| == 4 && Upper(name) == name
    ensures |name| == 4 && (forall i :: 0 <= i < 4 ==> IsUpperChar(name[i])) ==> b
    ensures b <==> |name| == 4 && (exists i :: 0 <= i < 4 && IsUpperChar(name[i])) &&
                   forall i :: 0 <= i < 4 ==> !IsLowerChar(name[i])
  {
    if |name| == 4 && IsUpper(name) then
      UpperOfIsUpper(name);
      true
    else
      false
  }

  /** `get_hafasid_from_name`: the station id found on the chosen path;
      `None` is the `StopIteration` of that path. */
  function HafasIdFromName(ss: seq<Station>, name: string): (r: Option<string>)
    ensures LooksLikeShortName(name) ==>
      r == (if FindByShortName(ss, name).Some? then Some(FindByShortName(ss, name).value.hafasID) else None)
    ensures !LooksLikeShortName(name) ==>
      r == (if FindByLongName(ss, name).Some? then Some(FindByLongName(ss, name).value.hafasID) else None)
  {
    var found := if LooksLikeShortName(name) then FindByShortName(ss, name) else FindByLongName(ss, name);
    match found
    case None => None
    case Some(st) => Some(st.hafasID)
  }

  /** Short names are a key when no two stations share one. */
  ghost predicate UniqueShortNames(ss: seq<Station>) {
    forall i, j :: 0 <= i < |ss| && 0 <= j < |ss| && ss[i].shortName == ss[j].shortName ==> i == j
  }

  /** A four-character upper-case code resolves to the id of the first
      station that has it as its short name. */
  lemma ResolveByCode(ss: seq<Station>, k: int)
    requires 0 <= k < |ss| && LooksLikeShortName(ss[k].shortName)
    requires forall j :: 0 <= j < k ==> ss[j].shortName != ss[k].shortName
    ensures HafasIdFromName(ss, ss[k].shortName) == Some(ss[k].hafasID)
  {
    var code := ss[k].shortName;
    assert IsFirstMatch(ss, ShortNameIs(Upper(code)), k);
    FirstAt(ss, ShortNameIs(Upper(code)), k);
  }

  /** When short names are unique, every code-shaped short name resolves
      to its own station. */
  lemma ResolveByUniqueCode(ss: seq<Station>, k: int)
    requires 0 <= k < |ss| && UniqueShortNames(ss)
    requires LooksLikeShortName(ss[k].shortName)
    ensures HafasIdFromName(ss, ss[k].shortName) == Some(ss[k].hafasID)
  {
    ResolveByCode(ss, k);
  }

  /** Lookups ignore the case of the query: upper-casing it first changes
      neither the short-name nor the long-name lookup nor the search. */
  lemma LookupsIgnoreQueryCase(ss: seq<Station>, name: string)
    ensures FindByShortName(ss, Upper(name)) == FindByShortName(ss, name)
    ensures FindByLongName(ss, Upper(name)) == FindByLongName(ss, name)
    ensures SearchByLongName(ss, Upper(name)) == SearchByLongName(ss, name)
  {
    UpperIdempotent(name);
    CasefoldUpper(name);
  }

  /** For any other query, the first station whose long name matches it
      case-insensitively gives the id. */
  lemma ResolveByLongName(ss: seq<Station>, name: string, k: int)
    requires !LooksLikeShortName(name)
    requires 0 <= k < |ss| && Casefold(ss[k].longName) == Casefold(name)
    requires forall j :: 0 <= j < k ==> Casefold(ss[j].longName) != Casefold(name)
    ensures HafasIdFromName(ss, name) == Some(ss[k].hafasID)
  {
    assert IsFirstMatch(ss, LongNameIs(Casefold(name)), k);
    FirstAt(ss, LongNameIs(Casefold(name)), k);
  }

  /** Resolution fails exactly when the chosen path has no match; the other
      path is never consulted, so a code-shaped query is never matched
      against long names. */
  lemma ResolveNotFound(ss: seq<Station>, name: string)
    ensures HafasIdFromName(ss, name).None? <==>
      if LooksLikeShortName(name)
      then forall i :: 0 <= i < |ss| ==> ss[i].shortName != name
      else forall i :: 0 <= i < |ss| ==> Casefold(ss[i].longName) != Casefold(name)
  {
    if LooksLikeShortName(name) {
      UpperOfIsUpper(name);
    }
  }

  /** Letters mixed with digits are a code when the letters are upper
      case; four digits have no cased character and are a long name. */
  lemma DispatchExamples()
    ensures LooksLikeShortName("A1B2")
    ensures !LooksLikeShortName("1234")
    ensures !LooksLikeShortName("Hbhf")
    ensures !LooksLikeShortName("HBHF ")
  {
    assert IsUpperChar("A1B2"[0]);
    assert IsLowerChar("Hbhf"[1]);
  }

  /** Only the query is upper-cased: a station stored with a lower-case
      short name is not found by that name. */
  lemma StoredShortNameNotNormalised()
    ensures FindByShortName([Station("hbhf", "X", "1")], "hbhf") == None
  {
    assert Upper("hbhf")[0] == 'H';
  }

  /** The example directory with one station. */
  function MainStation(): Station {
    Station("HBHF", "Hauptbahnhof", "100")
  }

  /** The code, the long name in any case, and a mere prefix of it. */
  lemma MainStationScenario()
    ensures HafasIdFromName([MainStation()], "HBHF") == Some("100")
    ensures HafasIdFromName([MainStation()], "hauptbahnhof") == Some("100")
    ensures HafasIdFromName([MainStation()], "Haupt") == None
    ensures SearchByLongName([MainStation()], "Haupt") == [MainStation()]
  {
    assert IsCased("HBHF"[0]);
    ResolveByUniqueCode([MainStation()], 0);
    assert !IsUpper("hauptbahnhof") by { assert IsCased("hauptbahnhof"[0]); }
    assert Casefold("Hauptbahnhof") == "hauptbahnhof";
    assert Casefold("hauptbahnhof") == "hauptbahnhof";
    ResolveByLongName([MainStation()], "hauptbahnhof", 0);
    assert Casefold("Haupt") == "haupt";
    assert |"Haupt"| != 4;
    assert "hauptbahnhof"[..5] == "haupt";
  }
}
