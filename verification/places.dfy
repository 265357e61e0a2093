/** Places returned by the geocoding service, their display title, and the place chosen
    when the widget locates the user. */
module Places {
  import opened Wrappers

  /** A geocoded place. A field the service leaves out is the empty string: the title
      drops an absent field and an empty one alike. */
  datatype Place = Place(
    name: string,
    admin1: string,
    country: string,
    latitude: real,
    longitude: real,
    timezone: Option<string>)

  /** The separator between the parts of a title. */
  const Separator: string := ", "

  /** `filter(Boolean)` on strings: the non-empty ones, in their order. */
  function NonEmpty(fields: seq<string>): (kept: seq<string>)
    ensures |kept| <= |fields|
    ensures forall i :: 0 <= i < |kept| ==> kept[i] != ""
    ensures forall s :: s in kept <==> s in fields && s != ""
    ensures kept == [] <==> forall i :: 0 <= i < |fields| ==> fields[i] == ""
    ensures (forall i :: 0 <= i < |fields| ==> fields[i] != "") ==> kept == fields
  {
    if fields == [] then []
    else if fields[0] == "" then NonEmpty(fields[1..])
    else [fields[0]] + NonEmpty(fields[1..])
  }

  /** `Array.prototype.join`: the parts with `sep` between each two neighbours. */
  function Join(parts: seq<string>, sep: string): (s: string)
    ensures parts == [] ==> s == ""
    ensures |parts| == 1 ==> s == parts[0]
  {
    if parts == [] then ""
    else if |parts| == 1 then parts[0]
    else parts[0] + sep + Join(parts[1..], sep)
  }

  /** Whether `s` ends with `suffix`. */
  predicate EndsWith(s: string, suffix: string)
  {
    |suffix| <= |s| && s[|s| - |suffix|..] == suffix
  }

  /** A join starts with the first part and ends with the last one; with two or more parts,
      the first is followed by the separator. */
  lemma {:induction false} JoinEnds(parts: seq<string>, sep: string)
    requires parts != []
    ensures parts[0] <= Join(parts, sep) && EndsWith(Join(parts, sep), parts[|parts| - 1])
    ensures |parts| > 1 ==> parts[0] + sep <= Join(parts, sep)
  {
    if |parts| > 1 {
      var rest := Join(parts[1..], sep);
      JoinEnds(parts[1..], sep);
      assert Join(parts, sep) == (parts[0] + sep) + rest;
      assert parts[1..][|parts[1..]| - 1] == parts[|parts| - 1];
      var s := Join(parts, sep);
      assert s[|s| - |rest|..] == rest;
    }
  }

  /** Filtering a concatenation filters each part: the kept strings keep their order. */
  lemma {:induction false} NonEmptyAppend(a: seq<string>, b: seq<string>)
    ensures NonEmpty(a + b) == NonEmpty(a) + NonEmpty(b)
  {
    if a == [] {
      assert a + b == b;
    } else {
      assert (a + b)[0] == a[0] && (a + b)[1..] == a[1..] + b;
      NonEmptyAppend(a[1..], b);
    }
  }

  /** The summed length of some strings. */
  function TotalLength(parts: seq<string>): nat
  {
    if parts == [] then 0 else |parts[0]| + TotalLength(parts[1..])
  }

  /** How many of the strings are non-empty. */
  function CountNonEmpty(parts: seq<string>): nat
  {
    if parts == [] then 0 else (if parts[0] == "" then 0 else 1) + CountNonEmpty(parts[1..])
  }

  /** A join holds its parts and exactly one separator between each two of them. */
  lemma {:induction false} JoinLength(parts: seq<string>)
    requires parts != []
    ensures |Join(parts, Separator)| == TotalLength(parts) + 2 * (|parts| - 1)
  {
    if |parts| > 1 {
      JoinLength(parts[1..]);
    }
  }

  /** Dropping empty strings keeps every character and leaves as many parts as were non-empty. */
  lemma {:induction false} NonEmptyMeasures(fields: seq<string>)
    ensures TotalLength(NonEmpty(fields)) == TotalLength(fields)
    ensures |NonEmpty(fields)| == CountNonEmpty(fields)
  {
    if fields != [] {
      NonEmptyMeasures(fields[1..]);
      if fields[0] != "" {
        assert NonEmpty(fields)[1..] == NonEmpty(fields[1..]);
      }
    }
  }

  /** The fields of a place that make up its title, in order. */
  function TitleFields(p: Place): seq<string>
  {
    [p.name, p.admin1, p.country]
  }

  /** The fields a title keeps: each present field, in the order name, region, country. */
  lemma TitleFieldsKept(p: Place)
    ensures NonEmpty(TitleFields(p)) ==
              (if p.name != "" then [p.name] else []) +
              (if p.admin1 != "" then [p.admin1] else []) +
              (if p.country != "" then [p.country] else [])
  {
    assert TitleFields(p) == [p.name] + [p.admin1] + [p.country];
    NonEmptyAppend([p.name] + [p.admin1], [p.country]);
    NonEmptyAppend([p.name], [p.admin1]);
  }

  /** The title of a place: its non-empty fields among name, region and country, in that
      order, joined by ", ". */
  function Title(p: Place): string
  {
    Join(NonEmpty(TitleFields(p)), Separator)
  }

  /** A present name opens the title, followed by the separator when another field is
      present; a present country closes it. */
  lemma TitleEnds(p: Place)
    ensures p.name != "" ==> p.name <= Title(p)
    ensures p.country != "" ==> EndsWith(Title(p), p.country)
    ensures p.name != "" && (p.admin1 != "" || p.country != "") ==> p.name + Separator <= Title(p)
  {
    TitleFieldsKept(p);
    var kept := NonEmpty(TitleFields(p));
    if kept != [] {
      JoinEnds(kept, Separator);
    }
  }

  /** A join of two parts. */
  lemma JoinTwo(x: string, y: string, sep: string)
    ensures Join([x, y], sep) == x + sep + y
  {
    assert [x, y][1..] == [y];
  }

  /** A join of three parts. */
  lemma JoinThree(x: string, y: string, z: string, sep: string)
    ensures Join([x, y, z], sep) == x + sep + y + sep + z
  {
    assert [x, y, z][1..] == [y, z];
    JoinTwo(y, z, sep);
  }

  /** For every pattern of present fields, the title is the present ones in order, joined by ", ". */
  lemma TitleInOrder(p: Place)
    ensures p.name != "" && p.admin1 != "" && p.country != "" ==>
              Title(p) == p.name + ", " + p.admin1 + ", " + p.country
    ensures p.name != "" && p.admin1 != "" && p.country == "" ==> Title(p) == p.name + ", " + p.admin1
    ensures p.name != "" && p.admin1 == "" && p.country != "" ==> Title(p) == p.name + ", " + p.country
    ensures p.name == "" && p.admin1 != "" && p.country != "" ==> Title(p) == p.admin1 + ", " + p.country
    ensures p.admin1 == "" && p.country == "" ==> Title(p) == p.name
    ensures p.name == "" && p.country == "" ==> Title(p) == p.admin1
    ensures p.name == "" && p.admin1 == "" ==> Title(p) == p.country
  {
    TitleFieldsKept(p);
    var kept := NonEmpty(TitleFields(p));
    if p.name != "" && p.admin1 != "" && p.country != "" {
      assert kept == [p.name, p.admin1, p.country];
      JoinThree(p.name, p.admin1, p.country, Separator);
    } else if p.name != "" && p.admin1 != "" {
      assert kept == [p.name, p.admin1];
      JoinTwo(p.name, p.admin1, Separator);
    } else if p.name != "" && p.country != "" {
      assert kept == [p.name, p.country];
      JoinTwo(p.name, p.country, Separator);
    } else if p.admin1 != "" && p.country != "" {
      assert kept == [p.admin1, p.country];
      JoinTwo(p.admin1, p.country, Separator);
    }
  }

  /** The title is exactly the present fields plus one separator between each two of them:
      no empty segment, no leading or trailing separator. */
  lemma TitleLength(p: Place)
    requires CountNonEmpty(TitleFields(p)) > 0
    ensures |Title(p)| == |p.name| + |p.admin1| + |p.country| + 2 * (CountNonEmpty(TitleFields(p)) - 1)
  {
    var fields := TitleFields(p);
    NonEmptyMeasures(fields);
    JoinLength(NonEmpty(fields));
    assert fields[1..][1..][1..] == [];
    assert TotalLength(fields[1..][1..]) == |p.country|;
    assert TotalLength(fields[1..]) == |p.admin1| + |p.country|;
  }

  /** The title is blank only when all three fields are. */
  lemma TitleBlank(p: Place)
    ensures Title(p) == "" <==> p.name == "" && p.admin1 == "" && p.country == ""
  {
    var fields := TitleFields(p);
    var kept := NonEmpty(fields);
    if kept != [] {
      JoinLength(kept);
      assert TotalLength(kept) >= |kept[0]| > 0;
      assert !(forall i :: 0 <= i < |fields| ==> fields[i] == "");
    } else {
      assert fields[0] == "" && fields[1] == "" && fields[2] == "";
    }
  }

  /** The name of the place used when the user's position cannot be named. */
  const CurrentLocationName: string := "Current location"

  /** The outcome of the reverse-geocoding lookup: it threw, or it answered with
      a `results` list that may be missing. */
  datatype ReverseLookup = Threw | Answered(results: Option<seq<Place>>)

  /** The place the widget selects for the user's position: the first reverse-geocoding
      result, or else a place named "Current location" at the raw coordinates. */
  function LocatedPlace(lookup: ReverseLookup, latitude: real, longitude: real): (p: Place)
    ensures lookup.Answered? && lookup.results.Some? && lookup.results.value != [] ==>
              p == lookup.results.value[0]
    ensures !(lookup.Answered? && lookup.results.Some? && lookup.results.value != []) ==>
              Title(p) == CurrentLocationName && p.latitude == latitude && p.longitude == longitude
              && p.timezone == None
  {
    match lookup
    case Answered(results) =>
      if results.Some? && results.value != [] then results.value[0]
      else Place(CurrentLocationName, "", "", latitude, longitude, None)
    case Threw =>
      Place(CurrentLocationName, "", "", latitude, longitude, None)
  }
}
