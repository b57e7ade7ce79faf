/** `handleSubmit` of the search form (components/SearchForm.tsx): the comma-separated
    city list is split, trimmed and cleared of empty names, and a search starts only
    when a city is left. */
module SearchForm {
  import opened Wrappers
  import opened Types
  import opened Strings
  import opened Seqs

  /** `parts.map(c => c.trim())`. */
  function TrimAll(parts: seq<string>): (r: seq<string>)
    ensures |r| == |parts|
    ensures forall i :: 0 <= i < |parts| ==> r[i] == Trim(parts[i])
  {
    Map(parts, Trim)
  }

  /** `input.split(',').map(c => c.trim()).filter(Boolean)`. */
  function ParseCities(input: string): (cities: seq<string>)
    ensures |cities| <= Occurrences(input, ',') + 1
    ensures forall i :: 0 <= i < |cities| ==>
              cities[i] != "" && !IsWhitespace(cities[i][0]) && !IsWhitespace(cities[i][|cities[i]| - 1])
  {
    var trimmed := TrimAll(Split(input, ','));
    var cities := Filter(trimmed, (c: string) => c != "");
    assert forall i :: 0 <= i < |cities| ==> cities[i] in trimmed;
    cities
  }

  /** A name is parsed iff it is non-empty and one of the trimmed comma-separated pieces
      (the `i`-th trimmed piece being `Trim` of the `i`-th piece). */
  lemma ParseCitiesMembership(input: string, city: string)
    ensures city in ParseCities(input) <==> city != "" && city in TrimAll(Split(input, ','))
  {
  }

  /** The names keep their input order: parsing text, a comma and more text gives the
      names of the first text followed by those of the second. */
  lemma {:induction false} ParseCitiesOrder(a: string, b: string)
    ensures ParseCities(a + [','] + b) == ParseCities(a) + ParseCities(b)
  {
    SplitAtSeparator(a, b, ',');
    TrimAllAppend(Split(a, ','), Split(b, ','));
    FilterAppend(TrimAll(Split(a, ',')), TrimAll(Split(b, ',')), (c: string) => c != "");
  }

  lemma TrimAllAppend(a: seq<string>, b: seq<string>)
    ensures TrimAll(a + b) == TrimAll(a) + TrimAll(b)
  {
    MapAppend(a, b, Trim);
  }

  /** Splitting at one more separator: the pieces of the text before it followed by the
      pieces of the text after it. */
  lemma {:induction false} SplitAtSeparator(a: string, b: string, sep: char)
    ensures Split(a + [sep] + b, sep) == Split(a, sep) + Split(b, sep)
    decreases |a|
  {
    if a == [] {
      assert a + [sep] + b == [sep] + b;
      SplitCons(sep, b, sep);
    } else {
      var c, t := a[0], a[1..];
      assert a == [c] + t;
      assert a + [sep] + b == [c] + (t + [sep] + b);
      SplitAtSeparator(t, b, sep);
      SplitCons(c, t + [sep] + b, sep);
      SplitCons(c, t, sep);
      ConsPieces(c, sep, Split(t, sep), Split(b, sep));
    }
  }

  /** One step of `Split`, on a text written as its first character and the rest. */
  lemma SplitCons(c: char, t: string, sep: char)
    ensures Split([c] + t, sep) ==
              if c == sep then [""] + Split(t, sep) else [[c] + Split(t, sep)[0]] + Split(t, sep)[1..]
  {
    assert ([c] + t)[0] == c;
    assert ([c] + t)[1..] == t;
  }

  /** The step of `Split` commutes with appending further pieces. */
  lemma ConsPieces(c: char, sep: char, front: seq<string>, back: seq<string>)
    requires |front| > 0
    ensures var rest := front + back;
            (if c == sep then [""] + rest else [[c] + rest[0]] + rest[1..])
              == (if c == sep then [""] + front else [[c] + front[0]] + front[1..]) + back
  {
    var rest := front + back;
    if c != sep {
      assert rest[0] == front[0];
      assert rest[1..] == front[1..] + back;
    }
  }

  /** Without a comma the input is one name, or none when it is blank. */
  lemma ParseCitiesSingle(input: string)
    requires ',' !in input
    ensures ParseCities(input) == if AllWhitespace(input) then [] else [Trim(input)]
  {
    SplitWithoutSeparator(input, ',');
    assert TrimAll([input]) == [Trim(input)];
  }

  lemma {:induction false} SplitWithoutSeparator(s: string, sep: char)
    requires sep !in s
    ensures Split(s, sep) == [s]
  {
    if s != [] {
      assert s[0] != sep;
      SplitWithoutSeparator(s[1..], sep);
      assert [s[0]] + s[1..] == s;
    }
  }

  /** The request `onSearch` receives. */
  datatype SearchRequest = SearchRequest(cities: seq<string>, prompt: string, unit: Unit)

  /** `handleSubmit`: a search with the parsed cities, the prompt and the unit, or none
      when no city is left. */
  function HandleSubmit(input: string, prompt: string, unit: Unit): (r: Option<SearchRequest>)
    ensures r.Some? <==> |ParseCities(input)| > 0
    ensures r.Some? ==> r.value == SearchRequest(ParseCities(input), prompt, unit)
  {
    var cities := ParseCities(input);
    if |cities| > 0 then Some(SearchRequest(cities, prompt, unit)) else None
  }

  /** A blank input starts no search. */
  lemma BlankInputSubmitsNothing(input: string, prompt: string, unit: Unit)
    requires AllWhitespace(input)
    ensures HandleSubmit(input, prompt, unit).None?
  {
    forall i | 0 <= i < |input| ensures input[i] != ',' {
      assert IsWhitespace(input[i]);
    }
    ParseCitiesSingle(input);
  }
}
