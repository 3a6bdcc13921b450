/** The trivia API's list logic: paging through the question list, the
    category array indexed by category id, the summaries of a search and of a
    per-category listing, and the choice of the next quiz question.

    Database queries are inputs: a `seq<Question>` is the rows a query
    returned, in the order it returned them. `Question.format()` is the
    identity here. */
module Trivia {
  import opened Responses
  import opened Seqs

  const QuestionsPerPage: nat := 10

  datatype Question = Question(id: int, question: string, answer: string, category: int, difficulty: int)

  /** A row of the category table; `kind` is the column named `type`. */
  datatype Category = Category(id: int, kind: string)

  datatype QuestionsPage = QuestionsPage(
    questions: seq<Question>,
    totalQuestions: nat,
    currentCategory: int,
    categories: seq<Option<string>>)

  datatype CategoriesPage = CategoriesPage(categories: seq<Option<string>>, totalCategories: nat)

  datatype SearchPage = SearchPage(questions: seq<Question>, totalQuestions: nat, currentCategory: Option<int>)

  datatype CategoryQuestions = CategoryQuestions(questions: seq<Question>, totalQuestions: nat, currentCategory: int)

  // ---------------------------------------------------------------------
  // Pagination
  // ---------------------------------------------------------------------

  /** `request.args.get('page', 1, type=int)`: None stands for a missing
      argument or one that does not convert to an int. */
  function RequestedPage(arg: Option<int>): (page: int)
    ensures arg.None? ==> page == 1
    ensures arg.Some? ==> page == arg.value
  {
    match arg
    case None => 1
    case Some(page) => page
  }

  /** How Python normalises one bound of a slice `s[i:j]` of a list of
      length n: a negative bound counts from the end, and the result is
      clamped to [0, n]. */
  function SliceBound(i: int, n: nat): (b: nat)
    ensures b <= n
  {
    if i < 0 then Max(0, n + i) else Min(i, n)
  }

  /** Python's `s[i:j]`. */
  function PySlice<T>(s: seq<T>, i: int, j: int): (r: seq<T>)
    ensures |r| <= |s|
    ensures 0 <= i <= j ==> r == s[Min(i, |s|)..Min(j, |s|)]
  {
    var lo, hi := SliceBound(i, |s|), SliceBound(j, |s|);
    if lo < hi then s[lo..hi] else []
  }

  /** `paginate_questions`: the page'th window of ten questions. */
  function Paginate(selection: seq<Question>, page: int): (r: seq<Question>)
    ensures |r| <= QuestionsPerPage
    ensures page >= 1 ==>
      r == selection[Min((page - 1) * QuestionsPerPage, |selection|)..Min(page * QuestionsPerPage, |selection|)]
    ensures page == 0 ==> r == []
  {
    var start := (page - 1) * QuestionsPerPage;
    PySlice(selection, start, start + QuestionsPerPage)
  }

  /** A page number of zero or below is not refused: Python reads the
      negative bounds from the end of the list, so page -k is a window of
      at most ten questions counted back from the end. */
  lemma NegativePageCountsFromEnd(selection: seq<Question>, page: int)
    requires page < 0
    ensures Paginate(selection, page) ==
      var n := |selection|;
      var lo, hi := Max(0, n + (page - 1) * QuestionsPerPage), Max(0, n + page * QuestionsPerPage);
      selection[lo..hi]
  {
  }

  /** Pages 1..k, one after the other. */
  function PagesUpTo(selection: seq<Question>, k: nat): seq<Question> {
    if k == 0 then [] else PagesUpTo(selection, k - 1) + Paginate(selection, k)
  }

  /** Reading pages 1..k in order gives back the first 10k questions of the
      selection, each once: the pages neither overlap nor skip a question. */
  lemma {:induction false} PagesUpToIsPrefix(selection: seq<Question>, k: nat)
    ensures PagesUpTo(selection, k) == selection[..Min(k * QuestionsPerPage, |selection|)]
  {
    if k > 0 {
      PagesUpToIsPrefix(selection, k - 1);
      var a, b := Min((k - 1) * QuestionsPerPage, |selection|), Min(k * QuestionsPerPage, |selection|);
      assert selection[..a] + selection[a..b] == selection[..b];
    }
  }

  /** Question i of the selection is question i % 10 of page i / 10 + 1. */
  lemma PageOfPosition(selection: seq<Question>, i: int)
    requires 0 <= i < |selection|
    ensures var page := Paginate(selection, i / QuestionsPerPage + 1);
      i % QuestionsPerPage < |page| && page[i % QuestionsPerPage] == selection[i]
  {
  }

  // ---------------------------------------------------------------------
  // The category array
  // ---------------------------------------------------------------------

  /** Python accepts a list index i when -len <= i < len. */
  predicate IndexInRange(i: int, len: nat) {
    -(len as int) <= i < len
  }

  /** The slot that a Python index denotes. */
  function SlotOf(i: int, len: nat): int {
    if i < 0 then i + len else i
  }

  /** Slot j of the category array after the writes of `cats`, done in
      order: the kind of the last category written to slot j, or None when
      no category was written there. */
  function LastKindAt(cats: seq<Category>, len: nat, j: int): Option<string> {
    if |cats| == 0 then None
    else if SlotOf(cats[|cats| - 1].id, len) == j then Some(cats[|cats| - 1].kind)
    else LastKindAt(cats[..|cats| - 1], len, j)
  }

  /** `slots` is the array `formatted_categories` built from `cats`. */
  ghost predicate IsCategoryArray(slots: seq<Option<string>>, cats: seq<Category>) {
    |slots| == |cats| + 1 &&
    forall j :: 0 <= j < |slots| ==> slots[j] == LastKindAt(cats, |slots|, j)
  }

  /** Every category id is a usable index of an array of |cats| + 1 slots. */
  predicate CategoryIdsFit(cats: seq<Category>) {
    forall c :: c in cats ==> IndexInRange(c.id, |cats| + 1)
  }

  /** The array `[None] * (len(categories) + 1)` filled with
      `formatted_categories[category.id] = category.type`; an id out of range
      raises IndexError, which nothing catches. */
  method BuildCategoryArray(cats: seq<Category>) returns (r: Result<seq<Option<string>>>)
    ensures r.Success? <==> CategoryIdsFit(cats)
    ensures r.Failure? ==> r.error == ServerError
    ensures r.Success? ==> IsCategoryArray(r.value, cats)
  {
    var slots := new Option<string>[|cats| + 1](_ => None);
    var i := 0;
    while i < |cats|
      invariant 0 <= i <= |cats|
      invariant forall k :: 0 <= k < i ==> IndexInRange(cats[k].id, slots.Length)
      invariant forall j :: 0 <= j < slots.Length ==> slots[j] == LastKindAt(cats[..i], slots.Length, j)
    {
      var c := cats[i];
      if !IndexInRange(c.id, slots.Length) {
        return Failure(ServerError);
      }
      slots[SlotOf(c.id, slots.Length)] := Some(c.kind);
      assert cats[..i + 1][..i] == cats[..i];
      i := i + 1;
    }
    assert cats[..i] == cats;
    return Success(slots[..]);
  }

  /** With distinct ids that all fit (the table's primary keys 1..n, say),
      the slot of each category holds its kind. */
  lemma {:induction false} CategorySlotHoldsKind(cats: seq<Category>, len: nat, c: Category)
    requires c in cats
    requires forall a, b :: a in cats && b in cats && SlotOf(a.id, len) == SlotOf(b.id, len) ==> a == b
    ensures LastKindAt(cats, len, SlotOf(c.id, len)) == Some(c.kind)
  {
    var last := cats[|cats| - 1];
    if SlotOf(last.id, len) != SlotOf(c.id, len) {
      assert c in cats[..|cats| - 1] by {
        assert cats == cats[..|cats| - 1] + [last];
      }
      CategorySlotHoldsKind(cats[..|cats| - 1], len, c);
    }
  }

  /** A slot that no category id denotes stays None. */
  lemma {:induction false} UnusedSlotIsNone(cats: seq<Category>, len: nat, j: int)
    requires forall c :: c in cats ==> SlotOf(c.id, len) != j
    ensures LastKindAt(cats, len, j) == None
  {
    if |cats| > 0 {
      assert cats[|cats| - 1] in cats;
      forall c | c in cats[..|cats| - 1] ensures SlotOf(c.id, len) != j {
        assert c in cats;
      }
      UnusedSlotIsNone(cats[..|cats| - 1], len, j);
    }
  }

  // ---------------------------------------------------------------------
  // Handlers
  // ---------------------------------------------------------------------

  /** GET /categories. */
  method GetCategories(cats: seq<Category>) returns (r: Result<CategoriesPage>)
    ensures r.Success? <==> CategoryIdsFit(cats)
    ensures r.Failure? ==> r.error == ServerError
    ensures r.Success? ==> IsCategoryArray(r.value.categories, cats) && r.value.totalCategories == |cats|
  {
    var slots := BuildCategoryArray(cats);
    if slots.Failure? {
      return Failure(slots.error);
    }
    return Success(CategoriesPage(slots.value, |cats|));
  }

  /** GET /questions?page=N, over the questions ordered by id. An empty page
      aborts with 404 before the categories are read; `total_questions` is
      the size of the whole selection. */
  method GetQuestions(selection: seq<Question>, cats: seq<Category>, pageArg: Option<int>)
    returns (r: Result<QuestionsPage>)
    ensures var page := Paginate(selection, RequestedPage(pageArg));
      && (page == [] ==> r == Failure(NotFound))
      && (page != [] ==> (r.Success? <==> CategoryIdsFit(cats)))
      && (page != [] && !CategoryIdsFit(cats) ==> r == Failure(ServerError))
      && (r.Success? ==>
            && r.value.questions == page
            && r.value.totalQuestions == |selection|
            && r.value.currentCategory == page[0].category
            && IsCategoryArray(r.value.categories, cats))
  {
    var page := Paginate(selection, RequestedPage(pageArg));
    if |page| == 0 {
      return Failure(NotFound);
    }
    var slots := BuildCategoryArray(cats);
    if slots.Failure? {
      return Failure(slots.error);
    }
    return Success(QuestionsPage(page, |selection|, page[0].category, slots.value));
  }

  /** A page past the last one is answered with 404, not with an empty page. */
  lemma PastLastPageIsNotFound(selection: seq<Question>, page: int)
    requires page >= 1 && (page - 1) * QuestionsPerPage >= |selection|
    ensures Paginate(selection, page) == []
  {
  }

  /** questions[i] is the first question whose text matches the term. */
  predicate FirstMatchAt(questions: seq<Question>, term: string, ilike: (string, string) -> bool, i: int) {
    0 <= i < |questions| &&
    ilike(questions[i].question, term) &&
    forall k :: 0 <= k < i ==> !ilike(questions[k].question, term)
  }

  /** POST /searches. `ilike(text, term)` is the database's case-insensitive
      substring match. */
  function SearchByTerm(questions: seq<Question>, term: string, ilike: (string, string) -> bool): (r: Result<SearchPage>)
    ensures term == "" <==> r == Failure(Unprocessable)
    ensures r.Success? ==>
      && (forall q :: q in r.value.questions <==> q in questions && ilike(q.question, term))
      && (forall q :: multiset(r.value.questions)[q] == if ilike(q.question, term) then multiset(questions)[q] else 0)
      && r.value.totalQuestions == |r.value.questions|
      && (r.value.currentCategory.None? <==> forall q :: q in questions ==> !ilike(q.question, term))
      && (r.value.currentCategory.Some? ==> r.value.currentCategory.value == r.value.questions[0].category)
      && (r.value.currentCategory.Some? ==> exists i :: FirstMatchAt(questions, term, ilike, i)
                                                      && questions[i].category == r.value.currentCategory.value)
  {
    if term == "" then Failure(Unprocessable)
    else
      var matches := (q: Question) => ilike(q.question, term);
      var found := Filter(questions, matches);
      FilterCounts(questions, matches);
      FilterFirst(questions, matches);
      Success(SearchPage(found, |found|, if |found| > 0 then Some(found[0].category) else None))
  }

  /** GET /categories/<id>/questions. */
  function QuestionsInCategory(questions: seq<Question>, categoryId: int): (r: Result<CategoryQuestions>)
    ensures r.Failure? <==> forall q :: q in questions ==> q.category != categoryId
    ensures r.Failure? ==> r.error == NotFound
    ensures r.Success? ==>
      && |r.value.questions| > 0
      && (forall q :: q in r.value.questions <==> q in questions && q.category == categoryId)
      && (forall q :: multiset(r.value.questions)[q] == if q.category == categoryId then multiset(questions)[q] else 0)
      && r.value.totalQuestions == |r.value.questions|
      && r.value.currentCategory == categoryId
  {
    var inCategory := (q: Question) => q.category == categoryId;
    var found := Filter(questions, inCategory);
    FilterCounts(questions, inCategory);
    if |found| == 0 then Failure(NotFound)
    else
      assert found[0] in found;
      Success(CategoryQuestions(found, |found|, categoryId))
  }

  // ---------------------------------------------------------------------
  // Quiz
  // ---------------------------------------------------------------------

  /** The questions a quiz draws from: all of them for category 0, otherwise
      those of the category. */
  function QuizPool(questions: seq<Question>, categoryId: int): (pool: seq<Question>)
    ensures forall q :: q in pool <==> q in questions && (categoryId == 0 || q.category == categoryId)
  {
    if categoryId == 0 then questions else Filter(questions, (q: Question) => q.category == categoryId)
  }

  /** shuffled[i] is the first question of `shuffled` not yet played. */
  predicate FirstUnplayedAt(shuffled: seq<Question>, previous: seq<int>, i: int) {
    0 <= i < |shuffled| &&
    shuffled[i].id !in previous &&
    forall k :: 0 <= k < i ==> shuffled[k].id in previous
  }

  /** The loop of `find_next_question`: the first question of `shuffled`
      whose id is not among the previous questions, or None. */
  method FirstUnplayed(shuffled: seq<Question>, previous: seq<int>) returns (current: Option<Question>)
    ensures current.None? <==> forall q :: q in shuffled ==> q.id in previous
    ensures current.Some? ==> exists i :: FirstUnplayedAt(shuffled, previous, i) && shuffled[i] == current.value
  {
    current := None;
    var i := 0;
    while i < |shuffled|
      invariant 0 <= i <= |shuffled|
      invariant forall k :: 0 <= k < i ==> shuffled[k].id in previous
    {
      if shuffled[i].id !in previous {
        assert FirstUnplayedAt(shuffled, previous, i);
        return Some(shuffled[i]);
      }
      i := i + 1;
    }
  }

  /** A question taken from a shuffle of the pool belongs to the pool. */
  lemma ShuffledFromPool(questions: seq<Question>, categoryId: int, shuffled: seq<Question>, q: Question)
    requires multiset(shuffled) == multiset(QuizPool(questions, categoryId))
    requires q in shuffled
    ensures q in questions && (categoryId == 0 || q.category == categoryId)
  {
    assert q in multiset(shuffled);
    assert q in QuizPool(questions, categoryId);
  }

  /** POST /quizzes. `shuffled` is the pool after `random.shuffle`, any
      ordering of it; `quizCategory` is None when the body carries no usable
      `quiz_category['id']`, which raises. With no previous questions the
      first shuffled question is returned, and an empty pool raises
      IndexError; otherwise the result is the first unplayed question, or
      None when every question was played. */
  method FindNextQuestion(questions: seq<Question>, quizCategory: Option<int>, previous: seq<int>, shuffled: seq<Question>)
    returns (r: Result<Option<Question>>)
    requires quizCategory.Some? ==> multiset(shuffled) == multiset(QuizPool(questions, quizCategory.value))
    ensures quizCategory.None? ==> r == Failure(ServerError)
    ensures quizCategory.Some? && |previous| == 0 ==>
      r == if |shuffled| == 0 then Failure(ServerError) else Success(Some(shuffled[0]))
    ensures quizCategory.Some? && |previous| > 0 ==>
      && r.Success?
      && (r.value.None? <==> forall q :: q in shuffled ==> q.id in previous)
      && (r.value.Some? ==> exists i :: FirstUnplayedAt(shuffled, previous, i) && shuffled[i] == r.value.value)
    ensures r.Success? && r.value.Some? ==>
      && r.value.value in questions
      && (quizCategory.value == 0 || r.value.value.category == quizCategory.value)
  {
    if quizCategory.None? {
      return Failure(ServerError);
    }
    var current: Option<Question>;
    if |previous| > 0 {
      current := FirstUnplayed(shuffled, previous);
    } else {
      if |shuffled| == 0 {
        return Failure(ServerError);
      }
      current := Some(shuffled[0]);
    }
    if current.Some? {
      ShuffledFromPool(questions, quizCategory.value, shuffled, current.value);
    }
    return Success(current);
  }
}
