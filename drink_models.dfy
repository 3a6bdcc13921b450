/** The coffee shop's drink record (`database/models.py`): its short and long
    JSON views, and the drinks table with the effects of `insert`, `delete`
    and `update` on it.

    The recipe column holds text; `json.loads` is not modelled and is passed
    in as `loads`, which yields `None` when the text is not JSON. */
module DrinkModels {
  import opened Responses
  import opened Seqs

  /** One entry of a recipe list: a JSON object with a colour and a number of
      parts, and usually a name. */
  datatype Ingredient = Ingredient(color: string, name: Option<string>, parts: int)

  /** What `json.loads` makes of a recipe text: a list of ingredient objects,
      or any other JSON value. */
  datatype Recipe = Ingredients(items: seq<Ingredient>) | OtherJson

  /** A row of the `drink` table. The title is nullable and unique among the
      rows that have one; the recipe is the stored text. */
  datatype Drink = Drink(id: int, title: Option<string>, recipe: string)

  /** An ingredient as the short view shows it: its name is dropped. */
  datatype ShortIngredient = ShortIngredient(color: string, parts: int)

  datatype ShortDrink = ShortDrink(id: int, title: Option<string>, recipe: seq<ShortIngredient>)

  datatype LongDrink = LongDrink(id: int, title: Option<string>, recipe: Recipe)

  // ---------------------------------------------------------------------
  // Views
  // ---------------------------------------------------------------------

  /** The list comprehension of `short()`: keeps `color` and `parts` of each
      ingredient, in order. */
  function ShortRecipe(items: seq<Ingredient>): (r: seq<ShortIngredient>)
    ensures |r| == |items|
    ensures forall i :: 0 <= i < |items| ==> r[i].color == items[i].color && r[i].parts == items[i].parts
  {
    if |items| == 0 then []
    else [ShortIngredient(items[0].color, items[0].parts)] + ShortRecipe(items[1..])
  }

  /** `short()`: fails (raises) when the recipe text does not parse, or parses
      to a value that `loads` does not give as a list of ingredient objects.
      An empty JSON object or string, over which the comprehension iterates
      without failing, has no value of its own here. */
  function Short(d: Drink, loads: string -> Option<Recipe>): (r: Option<ShortDrink>)
    ensures r.Some? <==> loads(d.recipe).Some? && loads(d.recipe).value.Ingredients?
    ensures r.Some? ==>
      && r.value.id == d.id && r.value.title == d.title
      && |r.value.recipe| == |loads(d.recipe).value.items|
  {
    match loads(d.recipe)
    case Some(Ingredients(items)) => Some(ShortDrink(d.id, d.title, ShortRecipe(items)))
    case _ => None
  }

  /** `long()`: fails only when the recipe text is not JSON. */
  function Long(d: Drink, loads: string -> Option<Recipe>): (r: Option<LongDrink>)
    ensures r.Some? <==> loads(d.recipe).Some?
    ensures r.Some? ==> r.value.id == d.id && r.value.title == d.title && r.value.recipe == loads(d.recipe).value
  {
    match loads(d.recipe)
    case Some(recipe) => Some(LongDrink(d.id, d.title, recipe))
    case None => None
  }

  /** The two views agree: same id and title, the long view holds the parsed
      recipe unchanged, and the short view is the long one with every
      ingredient's name dropped. Whenever the short view exists, so does the
      long one. */
  lemma ShortIsLongWithoutNames(d: Drink, loads: string -> Option<Recipe>)
    ensures Long(d, loads).Some? <==> loads(d.recipe).Some?
    ensures Long(d, loads).Some? ==>
      var l := Long(d, loads).value;
      l.id == d.id && l.title == d.title && l.recipe == loads(d.recipe).value
    ensures Short(d, loads).Some? ==> Long(d, loads).Some? && Long(d, loads).value.recipe.Ingredients?
    ensures Short(d, loads).Some? ==>
      var s, l := Short(d, loads).value, Long(d, loads).value;
      && s.id == l.id && s.title == l.title
      && |s.recipe| == |l.recipe.items|
      && forall i :: 0 <= i < |s.recipe| ==>
           s.recipe[i] == ShortIngredient(l.recipe.items[i].color, l.recipe.items[i].parts)
  {
    match loads(d.recipe)
    case Some(Ingredients(items)) =>
      var s := ShortRecipe(items);
      assert forall i :: 0 <= i < |s| ==> s[i] == ShortIngredient(s[i].color, s[i].parts);
    case _ =>
  }

  // ---------------------------------------------------------------------
  // The quote rewrite
  // ---------------------------------------------------------------------

  /** `recipe.replace("'", '"')`: the recipe is stored as Python's `str()` of
      a list, with single quotes, and is made JSON by this rewrite. */
  function ReplaceQuotes(s: string): (r: string)
    ensures |r| == |s|
    ensures forall i :: 0 <= i < |s| ==> r[i] == if s[i] == '\'' then '"' else s[i]
    ensures '\'' !in r
  {
    if |s| == 0 then ""
    else [if s[0] == '\'' then '"' else s[0]] + ReplaceQuotes(s[1..])
  }

  /** Rewriting twice is rewriting once. */
  lemma ReplaceQuotesIdempotent(s: string)
    ensures ReplaceQuotes(ReplaceQuotes(s)) == ReplaceQuotes(s)
  {
  }

  /** A text without single quotes is left as it is. */
  lemma ReplaceQuotesKeepsJson(s: string)
    requires '\'' !in s
    ensures ReplaceQuotes(s) == s
  {
  }

  // ---------------------------------------------------------------------
  // The table
  // ---------------------------------------------------------------------

  predicate HasId(rows: seq<Drink>, id: int) {
    exists d :: d in rows && d.id == id
  }

  /** A non-null title already held by some row: the unique constraint on
      `title` rejects it (SQLite lets any number of rows have a null title). */
  predicate TitleClash(rows: seq<Drink>, title: Option<string>) {
    title.Some? && exists d :: d in rows && d.title == title
  }

  /** Ids are positive and unique; non-null titles are unique. */
  ghost predicate ValidRows(rows: seq<Drink>) {
    && (forall i :: 0 <= i < |rows| ==> rows[i].id >= 1)
    && (forall i, j :: 0 <= i < j < |rows| ==> rows[i].id != rows[j].id)
    && (forall i, j :: 0 <= i < j < |rows| && rows[i].title.Some? ==> rows[i].title != rows[j].title)
  }

  /** The largest id in the table, 0 for an empty table. */
  function MaxId(rows: seq<Drink>): (r: int)
    ensures forall d :: d in rows ==> d.id <= r
    ensures |rows| > 0 ==> exists d :: d in rows && d.id == r
    ensures |rows| == 0 ==> r == 0
  {
    if |rows| == 0 then 0
    else if |rows| == 1 then rows[0].id
    else
      var init, last := rows[..|rows| - 1], rows[|rows| - 1];
      var m := MaxId(init);
      assert rows == init + [last];
      assert forall d :: d in init ==> d in rows;
      Max(m, last.id)
  }

  /** The id SQLite gives a new row of an `INTEGER PRIMARY KEY` table: one
      more than the largest id in use. */
  function NextId(rows: seq<Drink>): (r: int)
    requires ValidRows(rows)
    ensures r >= 1
    ensures !HasId(rows, r)
  {
    MaxId(rows) + 1
  }

  /** The table after `insert()` of a new drink. */
  function Inserted(rows: seq<Drink>, title: Option<string>, recipe: string): (r: seq<Drink>)
    requires ValidRows(rows)
    ensures |r| == |rows| + 1 && r[..|rows|] == rows
    ensures forall d :: d in r <==> d in rows || d == Drink(NextId(rows), title, recipe)
    ensures !HasId(rows, r[|rows|].id)
  {
    rows + [Drink(NextId(rows), title, recipe)]
  }

  /** The table after `delete()` of the drink with this id. */
  function Removed(rows: seq<Drink>, id: int): (r: seq<Drink>)
    ensures |r| <= |rows|
    ensures forall d :: d in r <==> d in rows && d.id != id
    ensures !HasId(r, id)
  {
    Filter(rows, (d: Drink) => d.id != id)
  }

  /** The table after `update()` of the drink with this id. */
  function Updated(rows: seq<Drink>, id: int, title: Option<string>, recipe: string): (r: seq<Drink>)
    ensures |r| == |rows|
    ensures forall k :: 0 <= k < |rows| ==> r[k].id == rows[k].id
    ensures forall d :: d in r && d.id == id ==> d == Drink(id, title, recipe)
    ensures HasId(rows, id) ==> Drink(id, title, recipe) in r
    ensures !HasId(rows, id) ==> r == rows
  {
    seq(|rows|, k requires 0 <= k < |rows| => if rows[k].id == id then Drink(id, title, recipe) else rows[k])
  }

  /** An insert without a title clash keeps the table valid, adds exactly the
      new row under a fresh id, and changes nothing else. */
  lemma InsertedValid(rows: seq<Drink>, title: Option<string>, recipe: string)
    requires ValidRows(rows) && !TitleClash(rows, title)
    ensures var r := Inserted(rows, title, recipe);
      && ValidRows(r)
      && Drink(NextId(rows), title, recipe) in r
      && Removed(r, NextId(rows)) == rows
  {
    var d := Drink(NextId(rows), title, recipe);
    SnocValid(rows, d);
    RemovedFresh(rows, d.id);
    FilterAppendLast(rows, d, d.id);
  }

  /** A row whose id and title no row has can be appended. */
  lemma SnocValid(rows: seq<Drink>, d: Drink)
    requires ValidRows(rows) && d.id >= 1
    requires forall x :: x in rows ==> x.id != d.id && (x.title.Some? ==> x.title != d.title)
    ensures ValidRows(rows + [d])
  {
    var r := rows + [d];
    assert forall i :: 0 <= i < |rows| ==> r[i] == rows[i] && rows[i] in rows;
  }

  /** A row whose id and title no row has can be put in front. */
  lemma ConsValid(d: Drink, rows: seq<Drink>)
    requires ValidRows(rows) && d.id >= 1
    requires forall x :: x in rows ==> x.id != d.id && (d.title.Some? ==> x.title != d.title)
    ensures ValidRows([d] + rows)
  {
    var r := [d] + rows;
    assert forall i :: 0 < i < |r| ==> r[i] == rows[i - 1] && rows[i - 1] in rows;
  }

  /** The rows after the first are valid, and none shares the first row's id
      or non-null title. */
  lemma TailValid(rows: seq<Drink>)
    requires ValidRows(rows) && |rows| > 0
    ensures ValidRows(rows[1..])
    ensures forall x :: x in rows[1..] ==>
      x.id != rows[0].id && (rows[0].title.Some? ==> x.title != rows[0].title)
  {
    var tail := rows[1..];
    assert forall i :: 0 <= i < |tail| ==> tail[i] == rows[i + 1];
    forall x | x in tail
      ensures x.id != rows[0].id && (rows[0].title.Some? ==> x.title != rows[0].title)
    {
      var j :| 0 <= j < |tail| && tail[j] == x;
    }
  }

  lemma {:induction false} RemovedFresh(rows: seq<Drink>, id: int)
    requires !HasId(rows, id)
    ensures Removed(rows, id) == rows
  {
    if |rows| > 0 {
      assert rows[0] in rows;
      assert forall d :: d in rows[1..] ==> d in rows;
      RemovedFresh(rows[1..], id);
      assert rows == [rows[0]] + rows[1..];
    }
  }

  lemma {:induction false} FilterAppendLast(rows: seq<Drink>, d: Drink, id: int)
    requires d.id == id
    ensures Removed(rows + [d], id) == Removed(rows, id)
  {
    if |rows| == 0 {
      assert Removed([d], id) == Removed([], id);
    } else {
      assert (rows + [d])[1..] == rows[1..] + [d];
      FilterAppendLast(rows[1..], d, id);
    }
  }

  /** A delete keeps the table valid, drops exactly the rows with this id,
      and keeps every other row in its order. */
  lemma RemovedValid(rows: seq<Drink>, id: int)
    requires ValidRows(rows)
    ensures var r := Removed(rows, id);
      && ValidRows(r)
      && !HasId(r, id)
      && (forall d :: d in r <==> d in rows && d.id != id)
      && |r| == |rows| - (if HasId(rows, id) then 1 else 0)
  {
    SubsequenceValid(rows, id);
    RemovedCount(rows, id);
  }

  /** Removing the rows with one id keeps validity. */
  lemma {:induction false} SubsequenceValid(rows: seq<Drink>, id: int)
    requires ValidRows(rows)
    ensures ValidRows(Removed(rows, id))
  {
    if |rows| > 0 {
      TailValid(rows);
      SubsequenceValid(rows[1..], id);
      if rows[0].id != id {
        assert Removed(rows, id) == [rows[0]] + Removed(rows[1..], id);
        ConsValid(rows[0], Removed(rows[1..], id));
      }
    }
  }

  /** A delete removes exactly one row when the id is in the table. */
  lemma {:induction false} RemovedCount(rows: seq<Drink>, id: int)
    requires ValidRows(rows)
    ensures |Removed(rows, id)| == |rows| - (if HasId(rows, id) then 1 else 0)
  {
    if |rows| > 0 {
      var tail := rows[1..];
      assert ValidRows(tail) by {
        assert forall i :: 0 <= i < |tail| ==> tail[i] == rows[i + 1];
      }
      RemovedCount(tail, id);
      assert forall d :: d in tail ==> d in rows;
      if rows[0].id == id {
        assert !HasId(tail, id) by {
          forall d | d in tail ensures d.id != id {
            var j :| 0 <= j < |tail| && tail[j] == d;
            assert tail[j] == rows[j + 1];
          }
        }
      } else {
        assert HasId(rows, id) ==> HasId(tail, id) by {
          if HasId(rows, id) {
            var d :| d in rows && d.id == id;
            var j :| 0 <= j < |rows| && rows[j] == d;
            assert j > 0 && tail[j - 1] == d;
          }
        }
      }
    }
  }

  /** An update without a title clash keeps the table valid, gives the row
      with this id the new title and recipe, and leaves every other row as it
      was and in its place. */
  lemma UpdatedValid(rows: seq<Drink>, id: int, title: Option<string>, recipe: string)
    requires ValidRows(rows) && HasId(rows, id)
    requires !TitleClash(Removed(rows, id), title)
    ensures var r := Updated(rows, id, title, recipe);
      && ValidRows(r)
      && Drink(id, title, recipe) in r
      && Removed(r, id) == Removed(rows, id)
  {
    UpdatedTitlesDistinct(rows, id, title, recipe);
    UpdatedFrame(rows, id, title, recipe);
  }

  /** The non-null titles stay unique when the new title clashes with no
      other row. */
  lemma UpdatedTitlesDistinct(rows: seq<Drink>, id: int, title: Option<string>, recipe: string)
    requires ValidRows(rows)
    requires !TitleClash(Removed(rows, id), title)
    ensures var r := Updated(rows, id, title, recipe);
      forall i, j :: 0 <= i < j < |r| && r[i].title.Some? ==> r[i].title != r[j].title
  {
    var r := Updated(rows, id, title, recipe);
    forall i, j | 0 <= i < j < |r| && r[i].title.Some?
      ensures r[i].title != r[j].title
    {
      if rows[i].id == id && rows[j].id != id {
        assert rows[j] in Removed(rows, id);
      } else if rows[j].id == id && rows[i].id != id {
        assert rows[i] in Removed(rows, id);
      }
    }
  }

  lemma {:induction false} UpdatedFrame(rows: seq<Drink>, id: int, title: Option<string>, recipe: string)
    ensures Removed(Updated(rows, id, title, recipe), id) == Removed(rows, id)
  {
    if |rows| > 0 {
      var r := Updated(rows, id, title, recipe);
      assert r[1..] == Updated(rows[1..], id, title, recipe);
      UpdatedFrame(rows[1..], id, title, recipe);
    }
  }

  /** The `drink` table: its rows in query order. `insert`, `delete` and
      `update` commit at once, so each is one change to the table. */
  class DrinkTable {
    var rows: seq<Drink>

    ghost predicate Valid()
      reads this
    {
      ValidRows(rows)
    }

    /** `db_drop_and_create_all()`: an empty table. */
    constructor ()
      ensures Valid() && rows == []
    {
      rows := [];
    }

    /** `insert()`: adds the drink under a fresh id, or fails on the unique
        title constraint and leaves the table as it was. */
    method Insert(title: Option<string>, recipe: string) returns (r: Option<Drink>)
      requires Valid()
      modifies this
      ensures Valid()
      ensures TitleClash(old(rows), title) ==> r.None? && rows == old(rows)
      ensures !TitleClash(old(rows), title) ==>
        && r == Some(Drink(NextId(old(rows)), title, recipe))
        && rows == Inserted(old(rows), title, recipe)
    {
      if TitleClash(rows, title) {
        return None;
      }
      InsertedValid(rows, title, recipe);
      var d := Drink(NextId(rows), title, recipe);
      rows := rows + [d];
      return Some(d);
    }

    /** `delete()` of a drink read from the table. */
    method Delete(id: int)
      requires Valid() && HasId(rows, id)
      modifies this
      ensures Valid()
      ensures rows == Removed(old(rows), id)
    {
      RemovedValid(rows, id);
      rows := Removed(rows, id);
    }

    /** `update()` after setting a drink's title and recipe: commits them, or
        fails on the unique title constraint and leaves the table as it was. */
    method Update(id: int, title: Option<string>, recipe: string) returns (ok: bool)
      requires Valid() && HasId(rows, id)
      modifies this
      ensures Valid()
      ensures ok <==> !TitleClash(Removed(old(rows), id), title)
      ensures ok ==> rows == Updated(old(rows), id, title, recipe)
      ensures !ok ==> rows == old(rows)
    {
      if TitleClash(Removed(rows, id), title) {
        return false;
      }
      UpdatedValid(rows, id, title, recipe);
      rows := Updated(rows, id, title, recipe);
      return true;
    }
  }
}
