/** The queue read: an order without ties, pages that partition it, and two read paths with one answer. */
module Paging {
  import opened Prelude
  import opened Sorting
  import opened Lexicographic
  import opened Text

  const MAX_PAGE_SIZE: nat := 200

  /** The ordering columns of a snapshot row; the rest of it is one opaque value. */
  datatype Snapshot = Snapshot(
    code: string,
    score: real,
    targetDate: Option<int>,
    name: string,
    rebuiltAt: int,
    facts: int)

  datatype Column = PriorityScore | TargetDate | Name | RebuiltAt

  function ColumnNamed(field: string): Option<Column> {
    if field == "score" then Some(PriorityScore)
    else if field == "target_date" then Some(TargetDate)
    else if field == "name" then Some(Name)
    else if field == "updated_at" then Some(RebuiltAt)
    else None
  }

  /** `resolve_ordering`: one signed, allowlisted field, and always the code after it. */
  function ResolveOrdering(orderBy: string): Result<(Column, bool), string> {
    var field := RemovePrefix(orderBy, DESCENDING_PREFIX);
    match ColumnNamed(field)
    case Some(column) => Ok((column, StartsWith(orderBy, DESCENDING_PREFIX)))
    case None => Err(field)
  }

  /** Every allowlisted name is accepted with and without the sign, which alone decides the direction. */
  lemma SignedNamesAreAccepted(field: string)
    ensures ColumnNamed(field).Some? ==>
              && ResolveOrdering(field) == Ok((ColumnNamed(field).value, false))
              && ResolveOrdering(DESCENDING_PREFIX + field) == Ok((ColumnNamed(field).value, true))
  {
    var signed := DESCENDING_PREFIX + field;
    assert signed[..1] == DESCENDING_PREFIX && signed[1..] == field;
    assert ColumnNamed(field).Some? ==> field[0] in { 's', 't', 'n', 'u' };
    assert StartsWith(field, DESCENDING_PREFIX) ==> field[..1][0] == '-';
  }

  /** And nothing else is. */
  lemma OthersAreRefused(orderBy: string)
    ensures ResolveOrdering(orderBy).Ok? ==>
              ColumnNamed(orderBy).Some?
              || (orderBy != "" && orderBy[0] == '-' && ColumnNamed(orderBy[1..]).Some?)
  {
    assert StartsWith(orderBy, DESCENDING_PREFIX) ==> orderBy[..1][0] == '-';
  }

  /** The database's comparison; a missing date is larger than any other. */
  function ColumnLe(column: Column): (Snapshot, Snapshot) -> bool {
    match column
    case PriorityScore => ((a: Snapshot, b: Snapshot) => a.score <= b.score)
    case TargetDate => ((a: Snapshot, b: Snapshot) =>
      b.targetDate.None? || (a.targetDate.Some? && a.targetDate.value <= b.targetDate.value))
    case Name => ((a: Snapshot, b: Snapshot) => TextLe(a.name, b.name))
    case RebuiltAt => ((a: Snapshot, b: Snapshot) => a.rebuiltAt <= b.rebuiltAt)
  }

  function CodeLe(): (Snapshot, Snapshot) -> bool {
    (a: Snapshot, b: Snapshot) => TextLe(a.code, b.code)
  }

  function QueueLe(column: Column, descending: bool): (Snapshot, Snapshot) -> bool {
    Lex(if descending then Flip(ColumnLe(column)) else ColumnLe(column), CodeLe())
  }

  lemma TextColumnsOrder()
    ensures TotalPreorder(ColumnLe(Name)) && TotalPreorder(CodeLe())
  {
    TextOrder();
    forall a: Snapshot, b: Snapshot
      ensures ColumnLe(Name)(a, b) || ColumnLe(Name)(b, a)
    {
      TextLeTotal(a.name, b.name);
    }
    forall a: Snapshot, b: Snapshot ensures CodeLe()(a, b) || CodeLe()(b, a) { TextLeTotal(a.code, b.code); }
    forall a: Snapshot, b: Snapshot, c: Snapshot | ColumnLe(Name)(a, b) && ColumnLe(Name)(b, c)
      ensures ColumnLe(Name)(a, c)
    {
      TextLeTransitive(a.name, b.name, c.name);
    }
    forall a: Snapshot, b: Snapshot, c: Snapshot | CodeLe()(a, b) && CodeLe()(b, c) ensures CodeLe()(a, c) {
      TextLeTransitive(a.code, b.code, c.code);
    }
  }

  lemma ColumnOrder(column: Column)
    ensures TotalPreorder(ColumnLe(column))
  {
    forall a: Snapshot, b: Snapshot ensures ColumnLe(column)(a, b) || ColumnLe(column)(b, a) {
      TextLeTotal(a.name, b.name);
    }
    forall a: Snapshot, b: Snapshot, c: Snapshot | ColumnLe(column)(a, b) && ColumnLe(column)(b, c)
      ensures ColumnLe(column)(a, c)
    {
      if column.Name? {
        TextLeTransitive(a.name, b.name, c.name);
      }
    }
  }

  lemma QueueOrder(column: Column, descending: bool)
    ensures TotalPreorder(QueueLe(column, descending))
    ensures forall a, b :: Equivalent(QueueLe(column, descending), a, b) ==> a.code == b.code
  {
    ColumnOrder(column);
    TextColumnsOrder();
    FlipOrder(ColumnLe(column));
    LexOrder(if descending then Flip(ColumnLe(column)) else ColumnLe(column), CodeLe());
    forall a, b | Equivalent(QueueLe(column, descending), a, b) ensures a.code == b.code {
      TextLeAntisymmetric(a.code, b.code);
    }
  }

  /** `project_code` is unique. */
  ghost predicate UniqueCodes(rows: seq<Snapshot>) {
    forall i, j :: 0 <= i < |rows| && 0 <= j < |rows| && rows[i].code == rows[j].code ==> i == j
  }

  /** An answer the database may give: the matching rows, each once, in an order that respects the keys. */
  ghost predicate Answers(table: seq<Snapshot>, column: Column, descending: bool, answer: seq<Snapshot>) {
    multiset(answer) == multiset(table) && SortedBy(QueueLe(column, descending), answer)
  }

  lemma UniqueAsBag(table: seq<Snapshot>, answer: seq<Snapshot>, a: Snapshot, b: Snapshot)
    requires UniqueCodes(table) && multiset(answer) == multiset(table)
    requires a in answer && b in answer && a.code == b.code
    ensures a == b
  {
    assert a in multiset(table) && b in multiset(table);
  }

  /** Because the code breaks every tie, there is only one answer: two reads never disagree about it. */
  lemma AnswersAreUnique(table: seq<Snapshot>, column: Column, descending: bool, first: seq<Snapshot>,
                        second: seq<Snapshot>)
    requires UniqueCodes(table)
    requires Answers(table, column, descending, first) && Answers(table, column, descending, second)
    ensures first == second
  {
    var le := QueueLe(column, descending);
    QueueOrder(column, descending);
    forall i, j | 0 <= i < |first| && 0 <= j < |first| && Equivalent(le, first[i], first[j])
      ensures first[i] == first[j]
    {
      UniqueAsBag(table, first, first[i], first[j]);
    }
    SortedPermutationUnique(le, first, second);
  }

  const FIELDS: set<string> := { "score", "target_date", "name", "updated_at" }

  /** In ascending order of the field, one row may stand before the other; a project without a date comes last. */
  predicate Ascends(field: string, a: Snapshot, b: Snapshot) {
    && (field == "score" ==> a.score <= b.score)
    && (field == "target_date" && b.targetDate.Some? ==>
          a.targetDate.Some? && a.targetDate.value <= b.targetDate.value)
    && (field == "name" ==> TextLe(a.name, b.name))
    && (field == "updated_at" ==> a.rebuiltAt <= b.rebuiltAt)
  }

  /** Each name stands for the column it names. */
  lemma NamesSortByTheirColumns(field: string, a: Snapshot, b: Snapshot)
    ensures ColumnNamed(field).Some? <==> field in FIELDS
    ensures ColumnNamed(field).Some? ==> (ColumnLe(ColumnNamed(field).value)(a, b) <==> Ascends(field, a, b))
  {
  }

  /** What the order asked for means for any two rows of the answer: the field in its direction, then the code. */
  lemma AnswersAreInFieldOrder(orderBy: string, table: seq<Snapshot>, answer: seq<Snapshot>, i: nat, j: nat)
    requires ResolveOrdering(orderBy).Ok? && i < j < |answer|
    requires var (column, descending) := ResolveOrdering(orderBy).value; Answers(table, column, descending, answer)
    ensures var field := RemovePrefix(orderBy, DESCENDING_PREFIX);
            var (first, second) := if StartsWith(orderBy, DESCENDING_PREFIX) then (answer[j], answer[i])
                                   else (answer[i], answer[j]);
            && field in FIELDS && Ascends(field, first, second)
            && (Ascends(field, second, first) ==> TextLe(answer[i].code, answer[j].code))
  {
    var field := RemovePrefix(orderBy, DESCENDING_PREFIX);
    var (column, descending) := ResolveOrdering(orderBy).value;
    NamesSortByTheirColumns(field, answer[i], answer[j]);
    NamesSortByTheirColumns(field, answer[j], answer[i]);
    assert QueueLe(column, descending)(answer[i], answer[j]);
  }

  // --- Windows --------------------------------------------------------------------------------------

  /** Python's `xs[offset:offset + limit]`. */
  function Window<T>(xs: seq<T>, offset: nat, limit: nat): seq<T> {
    if offset >= |xs| then [] else if offset + limit >= |xs| then xs[offset..] else xs[offset..offset + limit]
  }

  datatype PageWindow = PageWindow(offset: nat, limit: nat)

  /** `PageWindow.of`: pages below one are the first page, sizes are clamped. */
  function WindowOf(page: int, pageSize: int): (w: PageWindow)
    ensures 1 <= w.limit <= MAX_PAGE_SIZE
    ensures 1 <= pageSize <= MAX_PAGE_SIZE ==> w.limit == pageSize
    ensures pageSize < 1 ==> w.limit == 1
    ensures pageSize > MAX_PAGE_SIZE ==> w.limit == MAX_PAGE_SIZE
    ensures page <= 1 ==> w.offset == 0
    ensures page >= 1 ==> w.offset == (page - 1) * w.limit
  {
    var page := if page < 1 then 1 else page;
    var size := if pageSize < 1 then 1 else if pageSize > MAX_PAGE_SIZE then MAX_PAGE_SIZE else pageSize;
    PageWindow((page - 1) * size, size)
  }

  /** Consecutive pages start where the one before ends. */
  lemma PagesAreAdjacent(page: nat, pageSize: int)
    requires page >= 1
    ensures var w := WindowOf(page, pageSize);
            var next := WindowOf(page + 1, pageSize);
            next.limit == w.limit && next.offset == w.offset + w.limit
  {
  }

  /** The items of pages one to `n`, one after the other. */
  function FirstPages<T>(xs: seq<T>, pageSize: int, n: nat): seq<T> {
    if n == 0 then [] else
      var w := WindowOf(n, pageSize);
      FirstPages(xs, pageSize, n - 1) + Window(xs, w.offset, w.limit)
  }

  /** Reading page after page gives the list, prefix by prefix: nothing is repeated and nothing dropped. */
  lemma {:induction false} PagesConcatenate<T>(xs: seq<T>, pageSize: int, n: nat)
    ensures var end := WindowOf(n + 1, pageSize).offset;
            FirstPages(xs, pageSize, n) == if end >= |xs| then xs else xs[..end]
  {
    if n == 0 {
      assert xs[..0] == [];
    } else {
      PagesConcatenate(xs, pageSize, n - 1);
      PagesAreAdjacent(n, pageSize);
      var w := WindowOf(n, pageSize);
      if w.offset < |xs| {
        assert xs == xs[..w.offset] + xs[w.offset..];
        if w.offset + w.limit < |xs| {
          assert xs[..w.offset + w.limit] == xs[..w.offset] + xs[w.offset..w.offset + w.limit];
        }
      }
    }
  }

  // --- The two read paths -----------------------------------------------------------------------------

  /** A row with its flags evaluated. */
  datatype Item = Item(row: Snapshot, health: string, flags: set<string>)

  datatype Filters = Filters(health: Option<string>, flags: seq<string>, window: PageWindow)

  datatype Page = Page(items: seq<Item>, count: nat)

  function Evaluated(rows: seq<Snapshot>, evaluate: Snapshot -> Item): seq<Item> {
    seq(|rows|, i requires 0 <= i < |rows| => evaluate(rows[i]))
  }

  predicate DerivedFacets(f: Filters) {
    f.health.Some? || f.flags != []
  }

  /** One health, and every flag asked for. */
  predicate MatchesDerived(item: Item, f: Filters) {
    (f.health.Some? ==> item.health == f.health.value) && forall flag :: flag in f.flags ==> flag in item.flags
  }

  /** The evaluated rows that pass the derived facets. */
  function Selected(matched: seq<Snapshot>, f: Filters, evaluate: Snapshot -> Item): seq<Item> {
    Filter((item: Item) => MatchesDerived(item, f), Evaluated(matched, evaluate))
  }

  /** `read_queue` over the ordered match: window first when no column-less facet is asked for. */
  function ReadQueue(matched: seq<Snapshot>, f: Filters, evaluate: Snapshot -> Item): Page {
    if !DerivedFacets(f) then
      Page(Evaluated(Window(matched, f.window.offset, f.window.limit), evaluate), |matched|)
    else
      var selected := Selected(matched, f, evaluate);
      Page(Window(selected, f.window.offset, f.window.limit), |selected|)
  }

  /** What every read means, whichever path serves it: evaluate everything, filter, count, window. */
  function SimpleRead(matched: seq<Snapshot>, f: Filters, evaluate: Snapshot -> Item): Page {
    var selected := Selected(matched, f, evaluate);
    Page(Window(selected, f.window.offset, f.window.limit), |selected|)
  }

  /** What is selected: the rows with the health asked for and with every flag asked for. */
  lemma SelectedExactlyWhen(matched: seq<Snapshot>, f: Filters, evaluate: Snapshot -> Item, item: Item)
    ensures item in Selected(matched, f, evaluate)
            <==> (exists row :: row in matched && item == evaluate(row))
                 && (f.health.None? || Some(item.health) == f.health)
                 && (set flag | flag in f.flags) <= item.flags
  {
    var all := Evaluated(matched, evaluate);
    forall i | 0 <= i < |matched| ensures all[i] == evaluate(matched[i]) {}
    if exists row :: row in matched && item == evaluate(row) {
      var row :| row in matched && item == evaluate(row);
      var i :| 0 <= i < |matched| && matched[i] == row;
      assert all[i] == item;
    }
    assert (set flag | flag in f.flags) <= item.flags <==> forall flag :: flag in f.flags ==> flag in item.flags;
  }

  lemma SelectedIgnoresTheWindow(matched: seq<Snapshot>, f: Filters, w: PageWindow, evaluate: Snapshot -> Item)
    ensures Selected(matched, f.(window := w), evaluate) == Selected(matched, f, evaluate)
  {
    var g := f.(window := w);
    FilterCongruent((item: Item) => MatchesDerived(item, g), (item: Item) => MatchesDerived(item, f),
                    Evaluated(matched, evaluate));
  }

  /** The fast path is only faster. */
  lemma FastPathAgrees(matched: seq<Snapshot>, f: Filters, evaluate: Snapshot -> Item)
    ensures ReadQueue(matched, f, evaluate) == SimpleRead(matched, f, evaluate)
  {
    if !DerivedFacets(f) {
      var all := Evaluated(matched, evaluate);
      FilterAll((item: Item) => MatchesDerived(item, f), all);
      var w := f.window;
      assert Evaluated(Window(matched, w.offset, w.limit), evaluate) == Window(all, w.offset, w.limit);
    }
  }

  /** The pages of one filter, each read by its own query, in the order they are asked for. */
  ghost function PagesRead(answers: nat -> seq<Snapshot>, f: Filters, pageSize: int,
                        evaluate: Snapshot -> Item, n: nat): seq<Item> {
    if n == 0 then [] else
      PagesRead(answers, f, pageSize, evaluate, n - 1)
      + ReadQueue(answers(n), f.(window := WindowOf(n, pageSize)), evaluate).items
  }

  lemma {:induction false} PagesReadAreFirstPages(table: seq<Snapshot>, column: Column, descending: bool,
                                                  answers: nat -> seq<Snapshot>, f: Filters, pageSize: int,
                                                  evaluate: Snapshot -> Item, n: nat)
    requires UniqueCodes(table) && forall i :: Answers(table, column, descending, answers(i))
    ensures PagesRead(answers, f, pageSize, evaluate, n) == FirstPages(Selected(answers(0), f, evaluate), pageSize, n)
  {
    if n > 0 {
      PagesReadAreFirstPages(table, column, descending, answers, f, pageSize, evaluate, n - 1);
      AnswersAreUnique(table, column, descending, answers(0), answers(n));
      FastPathAgrees(answers(n), f.(window := WindowOf(n, pageSize)), evaluate);
      SelectedIgnoresTheWindow(answers(0), f, WindowOf(n, pageSize), evaluate);
    }
  }

  /**
    A client that pages through the queue, one query per page, while the table stands still, sees every
    selected project exactly once, in one order, whatever the facets, the column and the page size.
  */
  lemma PagingSeesEverythingOnce(table: seq<Snapshot>, column: Column, descending: bool,
                                 answers: nat -> seq<Snapshot>, f: Filters, pageSize: int,
                                 evaluate: Snapshot -> Item, n: nat)
    requires UniqueCodes(table) && forall i :: Answers(table, column, descending, answers(i))
    requires WindowOf(n + 1, pageSize).offset >= |Selected(answers(0), f, evaluate)|
    ensures PagesRead(answers, f, pageSize, evaluate, n) == Selected(answers(0), f, evaluate)
  {
    PagesReadAreFirstPages(table, column, descending, answers, f, pageSize, evaluate, n);
    PagesConcatenate(Selected(answers(0), f, evaluate), pageSize, n);
  }
}
