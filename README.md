# Full-Stack-Nanodegree list and table logic, in Dafny

This project models the deterministic core of three small Flask projects:

- **Trivia API** (`flaskr/__init__.py`). It covers:
  - the ten-per-page slicing of the question list, with Python slice semantics;
  - the category array indexed by category id;
  - the search and per-category summaries;
  - the choice of the next quiz question from a shuffled pool.
- **Fyyur** (`app.py`). It covers:
  - the venues listing, grouped by consecutive city and state;
  - the split of a venue's or an artist's shows into upcoming and past;
  - the search summaries;
  - the `'Yes'`/`'No'` form answer for the seeking flags.
- **Coffee shop** (`api.py`, `database/models.py`). It covers:
  - the drink record and its short and long views;
  - the quote rewrite applied to recipes;
  - the drinks table, with unique ids and unique non-null titles, and the create, update, delete and list handlers as operations on it.

The database is abstract. A query result is a `seq` of rows in the order the query returned them. The drinks table is a class whose `rows` field the handlers change. Some parts of the environment are parameters:

- the database's `ilike` match;
- `json.loads`;
- `datetime.today()`;
- the order `random.shuffle` produces, given as any permutation of the pool.

An uncaught exception becomes a 500 (`ServerError`). An `abort(n)` becomes the matching `HttpError`.

Modules:

| file | module | models |
|---|---|---|
| `responses.dfy` | `Responses` | `Option`, `Result` and the HTTP error codes used |
| `seqs.dfy` | `Seqs` | filtering and first-match lookup, which stand for query filters, `.first()` and `.get()` |
| `trivia.dfy` | `Trivia` | `projects/02_trivia_api/starter/backend/flaskr/__init__.py` |
| `fyyur.dfy` | `Fyyur` | `projects/01_fyyur/starter_code/app.py` |
| `drink_models.dfy` | `DrinkModels` | `projects/03_coffee_shop_full_stack/starter_code/backend/src/database/models.py` |
| `drink_api.dfy` | `DrinkApi` | `projects/03_coffee_shop_full_stack/starter_code/backend/src/api.py` |

Where the code and its own comments or tests disagree, the model follows the code:

- `get_questions` aborts with 404 for a page past the last one. `test_flaskr.py` expects 200 there.
- `total_questions` is the size of the whole selection. The docstring calls it the number of questions on the page.
- `create_drink` commits the new row before it reads the recipe back as JSON. A recipe that does not parse after the quote rewrite therefore answers 422 but keeps the row.
- `update_drink` works the same way: such a recipe answers 404 but keeps the update.
- `update_drink` answers a title clash with 404, because its `except Exception` turns every failure into 404. It does not answer 422.

## Model

| member | source | states |
|---|---|---|
| Trivia.RequestedPage | projects/02_trivia_api/starter/backend/flaskr/__init__.py:23 | a missing page argument, or one that does not convert to an int, is page 1; otherwise the page is the given number, unchecked |
| Trivia.PySlice | projects/02_trivia_api/starter/backend/flaskr/__init__.py:28 | Python's `s[i:j]`: never longer than `s`, and for `0 <= i <= j` the window `[min(i,n), min(j,n))` |
| Trivia.Paginate | projects/02_trivia_api/starter/backend/flaskr/__init__.py:23-30 | a page holds at most 10 questions. Page p >= 1 is exactly the slice `[(p-1)*10, p*10)` clamped to the list. Page 0 is empty |
| Trivia.NegativePageCountsFromEnd | projects/02_trivia_api/starter/backend/flaskr/__init__.py:24-28 | a negative page is not refused: it is a window of at most ten questions counted back from the end |
| Trivia.PagesUpToIsPrefix | projects/02_trivia_api/starter/backend/flaskr/__init__.py:24-28 | pages 1..k concatenated are exactly the first `min(10k, n)` questions of the selection: no overlap, no gap, same order |
| Trivia.PageOfPosition | projects/02_trivia_api/starter/backend/flaskr/__init__.py:24-28 | question i of the selection is entry `i % 10` of page `i / 10 + 1` |
| Trivia.BuildCategoryArray | projects/02_trivia_api/starter/backend/flaskr/__init__.py:61-64 | the array has `count + 1` slots. Each slot holds the type of the last category whose id (a Python index, possibly negative) denotes it, and None if no id does. An id outside `[-(count+1), count]` is an uncaught IndexError (500), and this is the only failure |
| Trivia.CategorySlotHoldsKind | projects/02_trivia_api/starter/backend/flaskr/__init__.py:61-64 | when ids denote distinct slots, slot `c.id` holds `c.type` |
| Trivia.UnusedSlotIsNone | projects/02_trivia_api/starter/backend/flaskr/__init__.py:61-64 | a slot that no id denotes stays None |
| Trivia.GetCategories | projects/02_trivia_api/starter/backend/flaskr/__init__.py:60-70 | succeeds iff every id fits. Then `categories` is the category array and `total_categories` is the number of categories |
| Trivia.GetQuestions | projects/02_trivia_api/starter/backend/flaskr/__init__.py:90-108 | an empty page is 404. Otherwise it succeeds iff the category ids fit, and an id that does not fit is 500 (the IndexError is not caught), never 404. On success it returns the page, `total_questions` = size of the whole selection, `current_category` = category of the page's first question, and the category array |
| Trivia.PastLastPageIsNotFound | projects/02_trivia_api/starter/backend/flaskr/__init__.py:93-94 | a page starting at or past the end is empty, so `get_questions` answers 404 |
| Trivia.SearchByTerm | projects/02_trivia_api/starter/backend/flaskr/__init__.py:204-222 | the empty term, and only it, is 422. Otherwise the questions are exactly those matching the term, each as often as in the table (a multiset equality), so `total_questions` is the number of matches. `current_category` is None iff nothing matches, else the category of the first matching question in table order |
| Trivia.QuestionsInCategory | projects/02_trivia_api/starter/backend/flaskr/__init__.py:241-252 | 404 iff no question has the category. Otherwise a nonempty list of exactly that category's questions, each as often as in the table, its length, and the requested id as `current_category` |
| Trivia.QuizPool | projects/02_trivia_api/starter/backend/flaskr/__init__.py:275-278 | the pool is every question for category 0, otherwise exactly the questions of that category |
| Trivia.FirstUnplayed | projects/02_trivia_api/starter/backend/flaskr/__init__.py:285-289 | the loop with `break` returns the first shuffled question whose id was not played, or None iff every id was played |
| Trivia.ShuffledFromPool | projects/02_trivia_api/starter/backend/flaskr/__init__.py:276-281 | a question of any permutation of the pool belongs to the pool: it is a question of the table and of the requested category (any category for 0) |
| Trivia.FindNextQuestion | projects/02_trivia_api/starter/backend/flaskr/__init__.py:270-297 | a missing `quiz_category` is 500. With no previous questions the answer is the first shuffled question, and an empty pool is 500. Otherwise the answer is the first unplayed shuffled question, or None iff all were played. Any question returned is in the pool |
| Fyyur.UpcomingShows | projects/01_fyyur/starter_code/app.py:230 | the shows of the venue or artist that start today or later, each as often as in the table; app.py:347 is the same query for an artist |
| Fyyur.PastShows | projects/01_fyyur/starter_code/app.py:235 | the shows of the venue or artist that started before today, each as often as in the table; app.py:352 is the same query for an artist |
| Fyyur.ShowsPartition | projects/01_fyyur/starter_code/app.py:230-238 | the upcoming shows (`start_time >= today`) and past shows (`start_time < today`) of a venue or artist add up, as multisets, to exactly its shows |
| Fyyur.VenueShowListToDict | projects/01_fyyur/starter_code/app.py:142-152 | one entry per show, in order, carrying its artist's name and image link. A show whose artist is missing is 500, and only such a show is |
| Fyyur.ArtistShowListToDict | projects/01_fyyur/starter_code/app.py:129-137 | one entry per show, in order, carrying its venue's name and image link. A dangling venue is 500, and only it is |
| Fyyur.ShowVenue | projects/01_fyyur/starter_code/app.py:221-240 | succeeds iff the venue exists and every show of it has its artist. The page carries the venue found by the lookup. The upcoming and past lists are exactly the venue's upcoming and past shows, each entry carries its show's artist's name and image link, and each count equals its list's length |
| Fyyur.ShowArtist | projects/01_fyyur/starter_code/app.py:338-357 | the same for an artist page: the artist found by the lookup, and each entry carries its show's venue's name and image link |
| Fyyur.GroupAdjacentFlattens | projects/01_fyyur/starter_code/app.py:178-195 | concatenating the groups' venues gives back exactly the input venues: nothing dropped, repeated or reordered |
| Fyyur.GroupAdjacentWellGrouped | projects/01_fyyur/starter_code/app.py:184-194 | every group is nonempty, every venue in a group has the group's city and state, and neighbouring groups differ in (city, state) |
| Fyyur.ClusteredGroupsDistinct | projects/01_fyyur/starter_code/app.py:171-194 | when venues with the same (city, state) are adjacent, as ordering by city and state makes them, no two groups share a (city, state) |
| Fyyur.Summary | projects/01_fyyur/starter_code/app.py:179-183 | a venue's dict keeps its id and name; `num_upcoming_shows` is at most the number of shows, and is 0 iff none of the venue's shows starts today or later |
| Fyyur.AreasListEveryVenue | projects/01_fyyur/starter_code/app.py:178-195 | the areas' `venues` lists, in order, are the summaries of the flattened groups |
| Fyyur.ListingOfGrouping | projects/01_fyyur/starter_code/app.py:178-195 | the listing built from the grouping has every area present, lists every venue's summary once and in order, and neighbouring areas differ in (city, state) |
| Fyyur.ListVenues | projects/01_fyyur/starter_code/app.py:166-197 | the loop with `last_city`/`last_state` builds exactly the areas of the grouping. An empty table gives `[None]`. Otherwise every area is present, the areas list every venue's summary (with `num_upcoming_shows` counting its shows from today on) once and in order, and neighbouring areas differ in (city, state) |
| Fyyur.ShowsWithId | projects/01_fyyur/starter_code/app.py:213 | as written: the count is at most the number of shows, and is 0 iff no show's own id is the given id; app.py:330 counts the same way |
| Fyyur.SearchResults | projects/01_fyyur/starter_code/app.py:207-218 | `count` is the number of matched rows, and `data` has one entry per matched row, in order, with its id, name and show count |
| Fyyur.SearchVenues | projects/01_fyyur/starter_code/app.py:199-219 | as written: the venues whose name matches, their number, and for each the number of shows whose own id equals the venue id |
| Fyyur.SearchArtists | projects/01_fyyur/starter_code/app.py:316-336 | as written: the same for artists |
| Fyyur.SearchCountByShowId | projects/01_fyyur/starter_code/app.py:213 | one upcoming show with id 7, of venue 1 and artist 3: the count by show id gives 0 for both venue 1 and artist 3 (app.py:330), while each has one upcoming show |
| Fyyur.SearchVenuesUpcoming | projects/01_fyyur/starter_code/app.py:199-219 | corrected: each matched venue's count is its shows from today on, the figure the listing shows at app.py:182 |
| Fyyur.SearchArtistsUpcoming | projects/01_fyyur/starter_code/app.py:316-336 | corrected: each matched artist's count is its shows from today on |
| Fyyur.SeekingFromForm | projects/01_fyyur/starter_code/app.py:262-265 | a submitted answer is True iff it is exactly 'Yes'; app.py:402-405, 462-465 and 504-507 read the same way |
| Fyyur.SeekingToForm | projects/01_fyyur/starter_code/app.py:374-377 | the edit form shows 'Yes' or 'No', and 'Yes' iff the flag is set; app.py:436-439 fills the venue form the same way |
| Fyyur.FlagRoundTrip | projects/01_fyyur/starter_code/app.py:436-439 | a seeking flag loaded into the edit form as 'Yes'/'No' and submitted unchanged is saved as the same flag |
| Fyyur.AnswerRoundTrip | projects/01_fyyur/starter_code/app.py:462-465 | 'Yes' and 'No' survive a save and a reload. Any other answer is saved as False and comes back as 'No' |
| DrinkModels.ShortRecipe | projects/03_coffee_shop_full_stack/starter_code/backend/src/database/models.py:52 | the short recipe has as many entries as the parsed recipe, and entry i has the colour and parts of ingredient i |
| DrinkModels.Short | projects/03_coffee_shop_full_stack/starter_code/backend/src/database/models.py:50-57 | `short()` succeeds iff `loads` gives a list of ingredient objects (the text is not a JSON value the model separates further), and keeps the id, the title and one entry per ingredient |
| DrinkModels.Long | projects/03_coffee_shop_full_stack/starter_code/backend/src/database/models.py:63-68 | `long()` succeeds iff the recipe parses, and keeps the id, the title and the parsed recipe unchanged |
| DrinkModels.ShortIsLongWithoutNames | projects/03_coffee_shop_full_stack/starter_code/backend/src/database/models.py:50-68 | `long()` fails only on text that is not JSON and then carries the parsed recipe unchanged. Whenever `short()` succeeds, `long()` does too, with the same id and title, and the short recipe is the long one with the names dropped |
| DrinkModels.ReplaceQuotes | projects/03_coffee_shop_full_stack/starter_code/backend/src/api.py:44 | same length, every `'` becomes `"`, every other character is unchanged, and no `'` is left |
| DrinkModels.ReplaceQuotesIdempotent | projects/03_coffee_shop_full_stack/starter_code/backend/src/api.py:72 | rewriting twice is rewriting once |
| DrinkModels.ReplaceQuotesKeepsJson | projects/03_coffee_shop_full_stack/starter_code/backend/src/api.py:103 | a text without `'` is left unchanged |
| DrinkModels.MaxId | projects/03_coffee_shop_full_stack/starter_code/backend/src/database/models.py:39 | the largest id in the table is at least every row's id and is some row's id; 0 for an empty table |
| DrinkModels.NextId | projects/03_coffee_shop_full_stack/starter_code/backend/src/database/models.py:39 | the autoincremented id is positive and no row has it |
| DrinkModels.Inserted | projects/03_coffee_shop_full_stack/starter_code/backend/src/database/models.py:79-81 | after `insert()` the old rows come first, unchanged, followed by exactly one new row, the drink under an id that no old row has |
| DrinkModels.Removed | projects/03_coffee_shop_full_stack/starter_code/backend/src/database/models.py:91-93 | after `delete()` the rows are exactly the old rows with another id, and no row has the id |
| DrinkModels.Updated | projects/03_coffee_shop_full_stack/starter_code/backend/src/database/models.py:104-105 | after `update()` every row keeps its id and place, the row with the id holds the new title and recipe, and an id not in the table leaves the rows as they were |
| DrinkModels.InsertedValid | projects/03_coffee_shop_full_stack/starter_code/backend/src/database/models.py:79-81 | inserting a drink whose title no row has keeps ids and titles unique, adds the drink under the new id, and removing that id gives back the old table |
| DrinkModels.RemovedValid | projects/03_coffee_shop_full_stack/starter_code/backend/src/database/models.py:91-93 | deleting keeps the table valid, leaves no row with the id, keeps exactly the other rows, and shortens the table by one iff the id was present |
| DrinkModels.UpdatedValid | projects/03_coffee_shop_full_stack/starter_code/backend/src/database/models.py:104-105 | updating an existing row to a title no other row has keeps the table valid, puts the new title and recipe under the id, and leaves every other row unchanged and in place |
| DrinkModels.DrinkTable.constructor | projects/03_coffee_shop_full_stack/starter_code/backend/src/database/models.py:29-31 | a freshly created table is empty and valid |
| DrinkModels.DrinkTable.Insert | projects/03_coffee_shop_full_stack/starter_code/backend/src/database/models.py:79-81 | a non-null title already in the table fails and leaves the table unchanged. Otherwise the drink is appended under the next id. The table stays valid |
| DrinkModels.DrinkTable.Delete | projects/03_coffee_shop_full_stack/starter_code/backend/src/database/models.py:91-93 | the table becomes the old table without the rows of that id, and stays valid |
| DrinkModels.DrinkTable.Update | projects/03_coffee_shop_full_stack/starter_code/backend/src/database/models.py:104-105 | succeeds iff no other row holds the new non-null title. It then replaces only that row's title and recipe, and on failure the table is unchanged |
| DrinkApi.Served | projects/03_coffee_shop_full_stack/starter_code/backend/src/api.py:142 | the drink as served keeps its id and title, and its recipe has no `'` |
| DrinkApi.DrinkWithId | projects/03_coffee_shop_full_stack/starter_code/backend/src/api.py:133 | the lookup finds a row iff the id is in the table, and then the row has that id |
| DrinkApi.GetDrinks | projects/03_coffee_shop_full_stack/starter_code/backend/src/api.py:35-53 | succeeds iff every row's rewritten recipe gives a short view, and failure is 404. On success there is one entry per row, in table order, each that row's short view. An empty table gives `[]` |
| DrinkApi.GetDrinksDetail | projects/03_coffee_shop_full_stack/starter_code/backend/src/api.py:63-81 | the same with the long view |
| DrinkApi.ListingsAgree | projects/03_coffee_shop_full_stack/starter_code/backend/src/api.py:38-78 | every table that `GET /drinks` can list, `GET /drinks-detail` lists too, with the same ids and titles |
| DrinkApi.CreateDrink | projects/03_coffee_shop_full_stack/starter_code/backend/src/api.py:92-113 | a title clash is 422 with the table unchanged. Otherwise exactly one row is appended under the next id, and the answer is the one-element list of its long view, or 422 when the recipe does not parse (the row stays) |
| DrinkApi.UpdateDrink | projects/03_coffee_shop_full_stack/starter_code/backend/src/api.py:126-152 | an unknown id is 404 with the table unchanged, and so is a clash with another row's title. Otherwise only that row's title and recipe change, and the answer is the one-element list of its long view, or 404 when the recipe does not parse |
| DrinkApi.DeleteDrink | projects/03_coffee_shop_full_stack/starter_code/backend/src/api.py:164-179 | an unknown id is 404 with the table unchanged. Otherwise exactly that row is removed and the answer carries the id |

## Findings

| source | as written | input that shows it | evidently intended | confidence | as-written member | corrected member |
|---|---|---|---|---|---|---|
| projects/01_fyyur/starter_code/app.py:213 | `num_upcoming_shows` of a matched venue counts `Show.id == venue.id` | one show `Show(id 7, venue 1, artist 3)` starting after today: venue 1 is reported with 0 upcoming shows | the venue's shows with `start_time >= today`, as the listing counts them at app.py:182 | high, not executed | Fyyur.SearchVenues, Fyyur.SearchCountByShowId | Fyyur.SearchVenuesUpcoming |
| projects/01_fyyur/starter_code/app.py:330 | `num_upcoming_shows` of a matched artist counts `Show.id == artist.id` | the same show: artist 3 is reported with 0 upcoming shows, while it has one (and a show whose id is 3 counts for artist 3 whatever its artist) | the artist's shows with `start_time >= today` | high, not executed | Fyyur.SearchArtists, Fyyur.SearchCountByShowId | Fyyur.SearchArtistsUpcoming |

## Left out

- Flask routing, `jsonify`, CORS headers, templates, `flash`, redirects and the error-handler bodies are framework plumbing. A response is its data or an `HttpError`.
- SQLAlchemy sessions, commit, rollback and close are not modelled. `setup_db`, `db_drop_and_create_all` and the seed inserts are not modelled either. The drinks table is the `DrinkTable` class, and each of `insert`, `delete` and `update` is one change to it.
- The quote rewrite changes the session's copy of a drink after the last commit, so the model applies it to the served value and never to the table.
- `json.loads` is the parameter `loads`. `str(recipe)` is not modelled: the handlers take the text it produces. The JSON value types of an ingredient's fields are narrowed to a string colour, an optional string name and integer parts. A list whose entries lack a colour or parts counts as `OtherJson`, on which `short()` fails and `long()` succeeds.
- A request body that is not JSON is left out: `request.get_json()` is called outside the `try` blocks.
- SQL `ilike` is the parameter `ilike`, with no wildcard escaping.
- `random.shuffle` is the parameter `shuffled`, which may be any permutation of the pool.
- `datetime.today()` is the parameter `today`. `format_datetime` (dateutil and babel) is not modelled.
- `Question.format()` and `__dict__` are the identity on rows. `str(start_time)` is not modelled.
- The `print` in `short()` has no effect on any result, so it is left out.
- `delete_question` and `create_question` of the trivia API are not part of this model. Both only re-page the selection after an ORM write, and that paging is `Trivia.Paginate`.
- The bodies of the Fyyur create and edit handlers are not part of this model, apart from the 'Yes'/'No' mapping. They copy form fields into ORM objects. `delete_venue` returns None.
- The Fyyur shows listing is not part of this model. It is a per-show loop like the show-list helpers, attaching each show's venue name and artist name and image link, and is outside the modelled core.
- Fyyur show creation and the artists listing are not part of this model. They are single queries with no list logic.
- `forms.py` is declarative WTForms configuration, and the migration is an Alembic DDL script. Neither is part of this model.
- The JWT authorisation module is not part of this model. Its source is not available, and it does network fetches and signature checks.
- The trivia tests send `previous_questions` as question objects, not ids. The model takes ids, as the code compares them with `cat_question['id']`.
- DrinkModels.Short: an empty JSON object or an empty string also makes `short()` succeed with an empty recipe, since the comprehension iterates over whatever `json.loads` returns. The model has no recipe value for these: read as `OtherJson`, `short()` fails (so `GET /drinks` answers 404 where the code answers 200); read as `Ingredients([])`, `long()` serves `[]` where the code serves `{}` or `""`.
- DrinkModels.NextId: gives max id + 1. SQLite's fallback to a random unused id after the largest possible rowid is not modelled.
- Concurrency between requests is not modelled: each handler is one atomic step on the table.
