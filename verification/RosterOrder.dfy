/** The roster read: its two in-place sorts are one ordering by the chosen key with ties by label. */
module RosterOrder {
  import opened Prelude
  import opened Sorting
  import opened Lexicographic
  import opened Text

  datatype LoadRow = LoadRow(
    code: string,
    name: string,
    role: Option<string>,
    utilization: real,
    loadPoints: nat,
    capacity: nat,
    openTasks: nat,
    overdueTasks: nat,
    blockedTasks: nat,
    urgentTasks: nat,
    projectsOwned: nat)

  datatype Attribute =
    | ByName | ByRole | ByUtilization | ByLoadPoints | ByCapacity | ByOpenTasks
    | ByOverdueTasks | ByBlockedTasks | ByUrgentTasks | ByProjectsOwned

  /** The allowlist of wire field names. */
  function AttributeNamed(field: string): Option<Attribute> {
    if field == "label" then Some(ByName)
    else if field == "role" then Some(ByRole)
    else if field == "utilization" then Some(ByUtilization)
    else if field == "load_points" then Some(ByLoadPoints)
    else if field == "capacity" then Some(ByCapacity)
    else if field == "open_tasks" then Some(ByOpenTasks)
    else if field == "overdue_tasks" then Some(ByOverdueTasks)
    else if field == "blocked_tasks" then Some(ByBlockedTasks)
    else if field == "urgent_tasks" then Some(ByUrgentTasks)
    else if field == "projects_owned" then Some(ByProjectsOwned)
    else None
  }

  /** `_ordering_key`: the attribute and whether the order is descending; one sign, an allowlisted name. */
  function OrderingKey(orderBy: string): Result<(Attribute, bool), string> {
    var field := RemovePrefix(orderBy, DESCENDING_PREFIX);
    match AttributeNamed(field)
    case Some(attribute) => Ok((attribute, StartsWith(orderBy, DESCENDING_PREFIX)))
    case None => Err(field)
  }

  /** People without a role sort together, under the empty text. */
  function KeyLe(attribute: Attribute): (LoadRow, LoadRow) -> bool {
    match attribute
    case ByName => ((a: LoadRow, b: LoadRow) => TextLe(a.name, b.name))
    case ByRole => ((a: LoadRow, b: LoadRow) => TextLe(OrEmpty(a.role), OrEmpty(b.role)))
    case ByUtilization => ((a: LoadRow, b: LoadRow) => a.utilization <= b.utilization)
    case ByLoadPoints => ((a: LoadRow, b: LoadRow) => a.loadPoints <= b.loadPoints)
    case ByCapacity => ((a: LoadRow, b: LoadRow) => a.capacity <= b.capacity)
    case ByOpenTasks => ((a: LoadRow, b: LoadRow) => a.openTasks <= b.openTasks)
    case ByOverdueTasks => ((a: LoadRow, b: LoadRow) => a.overdueTasks <= b.overdueTasks)
    case ByBlockedTasks => ((a: LoadRow, b: LoadRow) => a.blockedTasks <= b.blockedTasks)
    case ByUrgentTasks => ((a: LoadRow, b: LoadRow) => a.urgentTasks <= b.urgentTasks)
    case ByProjectsOwned => ((a: LoadRow, b: LoadRow) => a.projectsOwned <= b.projectsOwned)
  }

  lemma NameOrder()
    ensures TotalPreorder(KeyLe(ByName)) && TotalPreorder(KeyLe(ByRole))
  {
    TextOrder();
    forall a: LoadRow, b: LoadRow ensures KeyLe(ByName)(a, b) || KeyLe(ByName)(b, a) { TextLeTotal(a.name, b.name); }
    forall a: LoadRow, b: LoadRow
      ensures KeyLe(ByRole)(a, b) || KeyLe(ByRole)(b, a)
    {
      TextLeTotal(OrEmpty(a.role), OrEmpty(b.role));
    }
    forall a: LoadRow, b: LoadRow, c: LoadRow | KeyLe(ByName)(a, b) && KeyLe(ByName)(b, c) ensures KeyLe(ByName)(a, c) {
      TextLeTransitive(a.name, b.name, c.name);
    }
    forall a: LoadRow, b: LoadRow, c: LoadRow | KeyLe(ByRole)(a, b) && KeyLe(ByRole)(b, c) ensures KeyLe(ByRole)(a, c) {
      TextLeTransitive(OrEmpty(a.role), OrEmpty(b.role), OrEmpty(c.role));
    }
  }

  lemma KeyOrder(attribute: Attribute)
    ensures TotalPreorder(KeyLe(attribute))
  {
    if attribute.ByName? || attribute.ByRole? {
      NameOrder();
    }
  }

  function Directed(attribute: Attribute, descending: bool): (LoadRow, LoadRow) -> bool {
    if descending then Flip(KeyLe(attribute)) else KeyLe(attribute)
  }

  /** The order the roster is in: by the key in its direction, and by label, always ascending, within it. */
  function RosterLe(attribute: Attribute, descending: bool): (LoadRow, LoadRow) -> bool {
    Lex(Directed(attribute, descending), KeyLe(ByName))
  }

  lemma TwoSortsAreOne(attribute: Attribute, descending: bool, rows: seq<LoadRow>)
    ensures PythonSorted(KeyLe(attribute), PythonSorted(KeyLe(ByName), rows, false), descending)
            == StableSort(RosterLe(attribute, descending), rows)
  {
    KeyOrder(attribute);
    KeyOrder(ByName);
    if descending {
      ReverseIsDescending(KeyLe(attribute), StableSort(KeyLe(ByName), rows));
      FlipOrder(KeyLe(attribute));
    }
    TwoPassesAreOne(Directed(attribute, descending), KeyLe(ByName), rows);
  }

  /** What that order means for any two rows of the answer. */
  lemma RosterIsOrdered(attribute: Attribute, descending: bool, rows: seq<LoadRow>, i: nat, j: nat)
    requires i < j < |rows|
    ensures var sorted := StableSort(RosterLe(attribute, descending), rows);
            && multiset(sorted) == multiset(rows)
            && Directed(attribute, descending)(sorted[i], sorted[j])
            && (Equivalent(KeyLe(attribute), sorted[i], sorted[j]) ==> TextLe(sorted[i].name, sorted[j].name))
  {
    KeyOrder(attribute);
    KeyOrder(ByName);
    if descending {
      FlipOrder(KeyLe(attribute));
    }
    LexOrder(Directed(attribute, descending), KeyLe(ByName));
    StableSortIsStable(RosterLe(attribute, descending), rows);
    var sorted := StableSort(RosterLe(attribute, descending), rows);
    assert RosterLe(attribute, descending)(sorted[i], sorted[j]);
  }

  const FIELDS: set<string> :=
    { "label", "role", "utilization", "load_points", "capacity", "open_tasks", "overdue_tasks", "blocked_tasks",
      "urgent_tasks", "projects_owned" }

  /** In ascending order of the field, one row may stand before the other. */
  predicate Ascends(field: string, a: LoadRow, b: LoadRow) {
    && (field == "label" ==> TextLe(a.name, b.name))
    && (field == "role" ==> TextLe(OrEmpty(a.role), OrEmpty(b.role)))
    && (field == "utilization" ==> a.utilization <= b.utilization)
    && (field == "load_points" ==> a.loadPoints <= b.loadPoints)
    && (field == "capacity" ==> a.capacity <= b.capacity)
    && (field == "open_tasks" ==> a.openTasks <= b.openTasks)
    && (field == "overdue_tasks" ==> a.overdueTasks <= b.overdueTasks)
    && (field == "blocked_tasks" ==> a.blockedTasks <= b.blockedTasks)
    && (field == "urgent_tasks" ==> a.urgentTasks <= b.urgentTasks)
    && (field == "projects_owned" ==> a.projectsOwned <= b.projectsOwned)
  }

  lemma FieldsAreNamed(field: string)
    ensures AttributeNamed(field).Some? <==> field in FIELDS
  {
  }

  /** Each name stands for the column it names. */
  lemma NamesSortByTheirColumns(field: string, a: LoadRow, b: LoadRow)
    ensures AttributeNamed(field).Some? ==> (KeyLe(AttributeNamed(field).value)(a, b) <==> Ascends(field, a, b))
  {
  }

  /** The rows are in the order of the field, and by label within it. */
  ghost predicate InFieldOrder(field: string, descending: bool, rows: seq<LoadRow>) {
    forall i, j :: 0 <= i < j < |rows| ==>
      && (if descending then Ascends(field, rows[j], rows[i]) else Ascends(field, rows[i], rows[j]))
      && (Ascends(field, rows[i], rows[j]) && Ascends(field, rows[j], rows[i]) ==> TextLe(rows[i].name, rows[j].name))
  }

  lemma SortedByTheField(orderBy: string, rows: seq<LoadRow>)
    requires OrderingKey(orderBy).Ok?
    ensures var (attribute, descending) := OrderingKey(orderBy).value;
            var sorted := StableSort(RosterLe(attribute, descending), rows);
            && InFieldOrder(RemovePrefix(orderBy, DESCENDING_PREFIX), StartsWith(orderBy, DESCENDING_PREFIX), sorted)
            && multiset(sorted) == multiset(rows)
  {
    var field := RemovePrefix(orderBy, DESCENDING_PREFIX);
    var (attribute, descending) := OrderingKey(orderBy).value;
    var sorted := StableSort(RosterLe(attribute, descending), rows);
    KeyOrder(attribute);
    KeyOrder(ByName);
    FlipOrder(KeyLe(attribute));
    LexOrder(Directed(attribute, descending), KeyLe(ByName));
    StableSortIsStable(RosterLe(attribute, descending), rows);
    assert |sorted| == |multiset(sorted)| == |multiset(rows)| == |rows|;
    forall i, j | 0 <= i < j < |sorted|
      ensures if descending then Ascends(field, sorted[j], sorted[i]) else Ascends(field, sorted[i], sorted[j])
      ensures Ascends(field, sorted[i], sorted[j]) && Ascends(field, sorted[j], sorted[i]) ==>
                TextLe(sorted[i].name, sorted[j].name)
    {
      RosterIsOrdered(attribute, descending, rows, i, j);
      NamesSortByTheirColumns(field, sorted[i], sorted[j]);
      NamesSortByTheirColumns(field, sorted[j], sorted[i]);
    }
  }

  /** The library's in-place sort. */
  method SortInPlace(rows: array<LoadRow>, le: (LoadRow, LoadRow) -> bool, reverse: bool)
    modifies rows
    ensures rows[..] == PythonSorted(le, old(rows[..]), reverse)
  {
    var sorted := PythonSorted(le, rows[..], reverse);
    for i := 0 to rows.Length
      invariant rows[..i] == sorted[..i]
    {
      rows[i] := sorted[i];
    }
  }

  /** The last lines of `read_team_load`: an unknown key is refused, otherwise the rows are sorted twice. */
  method OrderRoster(rows: array<LoadRow>, orderBy: string) returns (refused: Option<string>)
    modifies rows
    ensures match OrderingKey(orderBy)
            case Err(field) => refused == Some(field) && rows[..] == old(rows[..])
            case Ok((attribute, descending)) =>
              refused.None? && rows[..] == StableSort(RosterLe(attribute, descending), old(rows[..]))
    ensures refused.None? <==> RemovePrefix(orderBy, DESCENDING_PREFIX) in FIELDS
    ensures refused.None? ==>
              && multiset(rows[..]) == multiset(old(rows[..]))
              && InFieldOrder(RemovePrefix(orderBy, DESCENDING_PREFIX), StartsWith(orderBy, DESCENDING_PREFIX),
                              rows[..])
  {
    var key := OrderingKey(orderBy);
    FieldsAreNamed(RemovePrefix(orderBy, DESCENDING_PREFIX));
    if key.Err? {
      return Some(key.error);
    }
    SortedByTheField(orderBy, rows[..]);
    var (attribute, descending) := key.value;
    TwoSortsAreOne(attribute, descending, rows[..]);
    SortInPlace(rows, KeyLe(ByName), false);
    SortInPlace(rows, KeyLe(attribute), descending);
    refused := None;
  }
}
