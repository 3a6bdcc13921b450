/** The coffee shop's drink routes (`api.py`) as operations on the drinks
    table. Every handler catches any exception and answers with a fixed
    error: 404 for the listings, update and delete, 422 for create.

    Each handler rewrites the recipe of the drinks it serves with
    `ReplaceQuotes` after its last commit, so the rewrite reaches the
    response only: the table keeps the stored text. */
module DrinkApi {
  import opened Responses
  import opened Seqs
  import opened DrinkModels

  /** A drink as a handler serves it: its recipe after the quote rewrite. */
  function Served(d: Drink): (r: Drink)
    ensures r.id == d.id && r.title == d.title && '\'' !in r.recipe
  {
    d.(recipe := ReplaceQuotes(d.recipe))
  }

  /** The drink with this id, as `Drink.query.filter(Drink.id == id)
      .one_or_none()` finds it. */
  function DrinkWithId(rows: seq<Drink>, id: int): (r: Option<Drink>)
    ensures r.Some? <==> HasId(rows, id)
    ensures r.Some? ==> r.value in rows && r.value.id == id
  {
    FindFirst(rows, (d: Drink) => d.id == id)
  }

  /** GET /drinks: the short view of every drink in table order, or 404 as
      soon as one recipe cannot be read. */
  method GetDrinks(table: DrinkTable, loads: string -> Option<Recipe>) returns (r: Result<seq<ShortDrink>>)
    ensures r.Success? <==> forall k :: 0 <= k < |table.rows| ==> Short(Served(table.rows[k]), loads).Some?
    ensures r.Failure? ==> r.error == NotFound
    ensures r.Success? ==> |r.value| == |table.rows|
    ensures r.Success? ==> forall k :: 0 <= k < |table.rows| ==>
      r.value[k] == Short(Served(table.rows[k]), loads).value
    ensures |table.rows| == 0 ==> r == Success([])
  {
    var drinks := table.rows;
    var drinksShort: seq<ShortDrink> := [];
    var i := 0;
    while i < |drinks|
      invariant 0 <= i <= |drinks|
      invariant |drinksShort| == i
      invariant forall k :: 0 <= k < i ==>
        Short(Served(drinks[k]), loads).Some? && drinksShort[k] == Short(Served(drinks[k]), loads).value
    {
      var drink := drinks[i];
      drink := drink.(recipe := ReplaceQuotes(drink.recipe));
      var short := Short(drink, loads);
      if short.None? {
        return Failure(NotFound);
      }
      drinksShort := drinksShort + [short.value];
      i := i + 1;
    }
    return Success(drinksShort);
  }

  /** GET /drinks-detail: the long view of every drink in table order, or 404
      as soon as one recipe is not JSON. */
  method GetDrinksDetail(table: DrinkTable, loads: string -> Option<Recipe>) returns (r: Result<seq<LongDrink>>)
    ensures r.Success? <==> forall k :: 0 <= k < |table.rows| ==> Long(Served(table.rows[k]), loads).Some?
    ensures r.Failure? ==> r.error == NotFound
    ensures r.Success? ==> |r.value| == |table.rows|
    ensures r.Success? ==> forall k :: 0 <= k < |table.rows| ==>
      r.value[k] == Long(Served(table.rows[k]), loads).value
    ensures |table.rows| == 0 ==> r == Success([])
  {
    var drinks := table.rows;
    var drinksDetail: seq<LongDrink> := [];
    var i := 0;
    while i < |drinks|
      invariant 0 <= i <= |drinks|
      invariant |drinksDetail| == i
      invariant forall k :: 0 <= k < i ==>
        Long(Served(drinks[k]), loads).Some? && drinksDetail[k] == Long(Served(drinks[k]), loads).value
    {
      var drink := drinks[i];
      drink := drink.(recipe := ReplaceQuotes(drink.recipe));
      var long := Long(drink, loads);
      if long.None? {
        return Failure(NotFound);
      }
      drinksDetail := drinksDetail + [long.value];
      i := i + 1;
    }
    return Success(drinksDetail);
  }

  /** Every drink that GET /drinks can list, GET /drinks-detail lists too,
      under the same id and title. */
  lemma ListingsAgree(rows: seq<Drink>, loads: string -> Option<Recipe>)
    requires forall k :: 0 <= k < |rows| ==> Short(Served(rows[k]), loads).Some?
    ensures forall k :: 0 <= k < |rows| ==> Long(Served(rows[k]), loads).Some?
    ensures forall k :: 0 <= k < |rows| ==>
      Short(Served(rows[k]), loads).value.id == rows[k].id == Long(Served(rows[k]), loads).value.id
      && Short(Served(rows[k]), loads).value.title == rows[k].title == Long(Served(rows[k]), loads).value.title
  {
    forall k | 0 <= k < |rows| {
      ShortIsLongWithoutNames(Served(rows[k]), loads);
    }
  }

  /** POST /drinks with the request's title and `str(recipe)`: inserts the
      drink and answers with its long view. A title clash fails the commit
      (422, table unchanged); a recipe that is not JSON after the rewrite
      fails after the commit (422, the new row stays). */
  method CreateDrink(table: DrinkTable, title: Option<string>, recipe: string, loads: string -> Option<Recipe>)
    returns (r: Result<seq<LongDrink>>)
    requires table.Valid()
    modifies table
    ensures table.Valid()
    ensures TitleClash(old(table.rows), title) ==> r == Failure(Unprocessable) && table.rows == old(table.rows)
    ensures !TitleClash(old(table.rows), title) ==>
      var d := Drink(NextId(old(table.rows)), title, recipe);
      && table.rows == Inserted(old(table.rows), title, recipe)
      && r == match Long(Served(d), loads)
              case Some(l) => Success([l])
              case None => Failure(Unprocessable)
  {
    var inserted := table.Insert(title, recipe);
    if inserted.None? {
      return Failure(Unprocessable);
    }
    var drink := inserted.value;
    drink := drink.(recipe := ReplaceQuotes(drink.recipe));
    var long := Long(drink, loads);
    if long.None? {
      return Failure(Unprocessable);
    }
    return Success([long.value]);
  }

  /** PATCH /drinks/<id> with the request's title and `str(recipe)`: 404 for
      an unknown id; otherwise sets both fields and commits. A title clash
      fails the commit (404, table unchanged); a recipe that is not JSON after
      the rewrite fails after the commit (404, the update stays). */
  method UpdateDrink(table: DrinkTable, id: int, title: Option<string>, recipe: string, loads: string -> Option<Recipe>)
    returns (r: Result<seq<LongDrink>>)
    requires table.Valid()
    modifies table
    ensures table.Valid()
    ensures !HasId(old(table.rows), id) ==> r == Failure(NotFound) && table.rows == old(table.rows)
    ensures HasId(old(table.rows), id) && TitleClash(Removed(old(table.rows), id), title) ==>
      r == Failure(NotFound) && table.rows == old(table.rows)
    ensures HasId(old(table.rows), id) && !TitleClash(Removed(old(table.rows), id), title) ==>
      && table.rows == Updated(old(table.rows), id, title, recipe)
      && r == match Long(Served(Drink(id, title, recipe)), loads)
              case Some(l) => Success([l])
              case None => Failure(NotFound)
  {
    var found := DrinkWithId(table.rows, id);
    if found.None? {
      return Failure(NotFound);
    }
    var ok := table.Update(id, title, recipe);
    if !ok {
      return Failure(NotFound);
    }
    var drink := Drink(id, title, recipe);
    drink := drink.(recipe := ReplaceQuotes(drink.recipe));
    var long := Long(drink, loads);
    if long.None? {
      return Failure(NotFound);
    }
    return Success([long.value]);
  }

  /** DELETE /drinks/<id>: 404 for an unknown id; otherwise removes that row
      and answers with the id. */
  method DeleteDrink(table: DrinkTable, id: int) returns (r: Result<int>)
    requires table.Valid()
    modifies table
    ensures table.Valid()
    ensures !HasId(old(table.rows), id) ==> r == Failure(NotFound) && table.rows == old(table.rows)
    ensures HasId(old(table.rows), id) ==> r == Success(id) && table.rows == Removed(old(table.rows), id)
  {
    var found := DrinkWithId(table.rows, id);
    if found.None? {
      return Failure(NotFound);
    }
    table.Delete(id);
    return Success(id);
  }
}
