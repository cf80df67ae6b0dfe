/** The model picker of components/ModelSearch.tsx: a search box that
    filters the models of the chosen category by name, and the choice of
    what to show (spinner, error, list, or the empty message).

    `filteredModels` is state written by an effect on `[searchQuery,
    models]`; between renders it equals `FilteredModels(searchQuery, models)`,
    which is what this module defines. */
module ModelSearch {
  import opened Common
  import opened MockDatabase

  /** `model.model_name.toLowerCase().includes(searchQuery.toLowerCase())` */
  predicate NameMatches(m: Model, query: string) {
    Contains(Lower(m.modelName), Lower(query))
  }

  /** `models.filter(...)` with the name test: the matching models, in their
      order, each as often as it occurs. */
  function FilterByName(models: seq<Model>, query: string): (r: seq<Model>)
    ensures SubsequenceOf(r, models)
    ensures forall m :: multiset(r)[m] == if NameMatches(m, query) then multiset(models)[m] else 0
    decreases |models|
  {
    if models == [] then []
    else
      var rest := FilterByName(models[1..], query);
      assert models == [models[0]] + models[1..];
      if NameMatches(models[0], query) then
        assert ([models[0]] + rest)[1..] == rest;
        [models[0]] + rest
      else rest
  }

  /** A subsequence that keeps every matching model and no other is the
      filter's result: the two contract clauses of `FilterByName` pin it down. */
  lemma {:induction false} FilterIsUnique(r: seq<Model>, models: seq<Model>, query: string)
    requires SubsequenceOf(r, models)
    requires forall m :: multiset(r)[m] == if NameMatches(m, query) then multiset(models)[m] else 0
    ensures r == FilterByName(models, query)
    decreases |models|
  {
    if models != [] {
      var m0 := models[0];
      assert models == [m0] + models[1..];
      if r != [] && r[0] == m0 && SubsequenceOf(r[1..], models[1..]) {
        assert r == [m0] + r[1..];
        assert multiset(r)[m0] > 0;
        forall m ensures multiset(r[1..])[m] == if NameMatches(m, query) then multiset(models[1..])[m] else 0 {
          assert multiset(r)[m] == multiset(r[1..])[m] + (if m == m0 then 1 else 0);
          assert multiset(models)[m] == multiset(models[1..])[m] + (if m == m0 then 1 else 0);
        }
        FilterIsUnique(r[1..], models[1..], query);
      } else {
        assert SubsequenceOf(r, models[1..]);
        SubsequenceMultiset(r, models[1..]);
        assert multiset(models)[m0] == multiset(models[1..])[m0] + 1;
        assert !NameMatches(m0, query);
        forall m ensures multiset(r)[m] == if NameMatches(m, query) then multiset(models[1..])[m] else 0 {
          assert multiset(models)[m] == multiset(models[1..])[m] + (if m == m0 then 1 else 0);
        }
        FilterIsUnique(r, models[1..], query);
      }
    }
  }

  /** The list the effect stores: all models for a query that is blank after
      trimming, otherwise the models whose lower-cased name contains the
      lower-cased query as typed (untrimmed). */
  function FilteredModels(query: string, models: seq<Model>): (r: seq<Model>)
    ensures IsBlank(query) ==> r == models
    ensures SubsequenceOf(r, models)
    ensures !IsBlank(query) ==> forall m :: multiset(r)[m] == if NameMatches(m, query) then multiset(models)[m] else 0
  {
    SubsequenceOfItself(models);
    if IsBlank(query) then models else FilterByName(models, query)
  }

  /** `clearSearch`: the query after pressing the clear button. */
  const ClearedQuery := ""

  /** The clear button is shown while the query is not empty. */
  predicate ClearButtonShown(query: string) {
    |query| > 0
  }

  /** After `clearSearch` the full list is back and the clear button is gone. */
  lemma ClearSearchShowsAll(models: seq<Model>)
    ensures FilteredModels(ClearedQuery, models) == models
    ensures !ClearButtonShown(ClearedQuery)
  {
  }

  /** A query of spaces only is blank, so it filters nothing out even though
      no model name would contain it. */
  lemma WhitespaceQueryShowsAll(query: string, models: seq<Model>)
    requires AllWs(query)
    ensures FilteredModels(query, models) == models
  {
    BlankIffAllWs(query);
  }

  /** A query with a non-whitespace character is not blank. */
  lemma NotBlankAt(query: string, k: int)
    requires 0 <= k < |query| && !IsWs(query[k])
    ensures !IsBlank(query)
  {
    BlankIffAllWs(query);
  }

  /** "14" and "14 " are not blank. */
  lemma DigitQueriesNotBlank()
    ensures !IsBlank("14") && !IsBlank("14 ")
  {
    NotBlankAt("14", 0);
    NotBlankAt("14 ", 0);
  }

  lemma IPhone14NameFacts()
    ensures Lower("iPhone 14") == "iphone 14"
    ensures Lower("14") == "14" && Lower("14 ") == "14 "
  {
  }

  lemma TrailingSpaceMissesIPhone14()
    ensures Contains("iphone 14", "14")
    ensures !Contains("iphone 14", "14 ")
  {
    var name := "iphone 14";
    assert name[7..9] == "14";
    assert OccursAt(name, "14", 7);
    forall i | 0 <= i <= |name| - 3 ensures !OccursAt(name, "14 ", i) {
      assert name[i..i + 3][0] == name[i];
      assert name[i..i + 3][2] == name[i + 2];
    }
  }

  lemma FilterSingleton(query: string, m: Model)
    requires !IsBlank(query)
    ensures FilteredModels(query, [m]) == if NameMatches(m, query) then [m] else []
  {
    assert [m][1..] == [];
  }

  /** The blank test trims, the match does not: with a trailing space the
      query "14 " no longer finds "iPhone 14", while "14" does. */
  lemma UntrimmedQueryTakesPart()
    ensures FilteredModels("14", [Model(3, "iPhone 14", "Display")]) == [Model(3, "iPhone 14", "Display")]
    ensures FilteredModels("14 ", [Model(3, "iPhone 14", "Display")]) == []
  {
    var m := Model(3, "iPhone 14", "Display");
    DigitQueriesNotBlank();
    IPhone14NameFacts();
    TrailingSpaceMissesIPhone14();
    FilterSingleton("14", m);
    FilterSingleton("14 ", m);
  }

  /** What the picker shows below the search box. */
  datatype View = Spinner | ErrorText(message: string) | ModelList(items: seq<Model>) | NoModelsFound

  /** Loading wins over an error, a (non-empty) error over the list, and an
      empty list shows the message. */
  function Render(loading: bool, error: Option<string>, filtered: seq<Model>): (v: View)
    ensures loading <==> v == Spinner
    ensures v.ErrorText? <==> !loading && error.Some? && error.value != ""
    ensures v.ErrorText? ==> v.message == error.value
    ensures v.ModelList? <==> !loading && (error.None? || error.value == "") && filtered != []
    ensures v.ModelList? ==> v.items == filtered
  {
    if loading then Spinner
    else if error.Some? && error.value != "" then ErrorText(error.value)
    else if |filtered| > 0 then ModelList(filtered)
    else NoModelsFound
  }
}
