/** Who carries how much: one grouped query against the definitions of open, blocked, urgent and overdue. */
module OwnerLoad {
  import opened Prelude
  import opened Sorting

  const DONE := "DONE"
  const CANCELLED := "CANCELLED"
  const BLOCKED := "BLOCKED"

  /** A task as the query sees it. */
  datatype Task = Task(
    archived: bool,
    assignee: Option<string>,
    category: string,
    urgent: bool,
    due: Option<int>)

  datatype Project = Project(archived: bool, owner: Option<string>)

  datatype Load = Load(open: nat, blocked: nat, urgent: nat, overdue: nat, owned: nat, capacity: nat)

  datatype Counts = Counts(open: nat, blocked: nat, urgent: nat, overdue: nat)

  const NO_TASKS := Counts(0, 0, 0, 0)

  // --- The chained definitions ----------------------------------------------------------------------

  predicate IsOpen(t: Task) {
    t.category != DONE && t.category != CANCELLED
  }

  /** Undated tasks are never overdue, and without a date to measure against nothing is. */
  predicate IsOverdue(t: Task, asOf: Option<int>) {
    asOf.Some? && t.due.Some? && t.due.value < asOf.value
  }

  function Active(tasks: seq<Task>): seq<Task> {
    Filter((t: Task) => !t.archived, tasks)
  }

  function AssignedTo(tasks: seq<Task>, code: string): seq<Task> {
    Filter((t: Task) => t.assignee == Some(code), tasks)
  }

  function Open(tasks: seq<Task>): seq<Task> {
    Filter(IsOpen, tasks)
  }

  function Blocked(tasks: seq<Task>): seq<Task> {
    Filter((t: Task) => t.category == BLOCKED, tasks)
  }

  function Urgent(tasks: seq<Task>): seq<Task> {
    Filter((t: Task) => t.urgent, tasks)
  }

  function Overdue(tasks: seq<Task>, asOf: Option<int>): seq<Task> {
    Filter((t: Task) => IsOverdue(t, asOf), tasks)
  }

  // --- The grouped query ---------------------------------------------------------------------------

  function One(b: bool): nat {
    if b then 1 else 0
  }

  function Add(c: Counts, t: Task, asOf: Option<int>): Counts {
    Counts(c.open + One(IsOpen(t)), c.blocked + One(t.category == BLOCKED),
           c.urgent + One(IsOpen(t) && t.urgent), c.overdue + One(IsOpen(t) && IsOverdue(t, asOf)))
  }

  function CountsOf(groups: map<string, Counts>, code: string): Counts {
    if code in groups then groups[code] else NO_TASKS
  }

  /** `GROUP BY assignee` over the unremoved tasks of the people asked about. */
  function Grouped(tasks: seq<Task>, codes: set<string>, asOf: Option<int>): map<string, Counts> {
    if tasks == [] then map[] else
      var groups := Grouped(tasks[..|tasks| - 1], codes, asOf);
      var t := tasks[|tasks| - 1];
      if t.archived || t.assignee.None? || t.assignee.value !in codes then groups
      else groups[t.assignee.value := Add(CountsOf(groups, t.assignee.value), t, asOf)]
  }

  function GroupedProjects(projects: seq<Project>, codes: set<string>): map<string, nat> {
    if projects == [] then map[] else
      var groups := GroupedProjects(projects[..|projects| - 1], codes);
      var p := projects[|projects| - 1];
      if p.archived || p.owner.None? || p.owner.value !in codes then groups
      else groups[p.owner.value := 1 + if p.owner.value in groups then groups[p.owner.value] else 0]
  }

  /** `owner_load_for_codes`: one entry per person asked for who exists, zeros where a group is missing. */
  function OwnerLoads(requested: seq<string>, capacities: map<string, nat>, tasks: seq<Task>,
                      projects: seq<Project>, asOf: Option<int>): map<string, Load>
  {
    if requested == [] then map[] else
      var known := set code | code in requested && code in capacities;
      var counted := Grouped(tasks, known, asOf);
      var owned := GroupedProjects(projects, known);
      map code | code in known ::
        var c := CountsOf(counted, code);
        Load(c.open, c.blocked, c.urgent, c.overdue, if code in owned then owned[code] else 0, capacities[code])
  }

  /** More open tasks than the weekly capacity. */
  predicate IsOverloaded(l: Load) {
    l.open > l.capacity
  }

  // --- They agree ----------------------------------------------------------------------------------

  lemma FilterLast<T(!new)>(p: T -> bool, xs: seq<T>)
    requires xs != []
    ensures Filter(p, xs) == Filter(p, xs[..|xs| - 1]) + (if p(xs[|xs| - 1]) then [xs[|xs| - 1]] else [])
  {
    var front, last := xs[..|xs| - 1], xs[|xs| - 1];
    assert front + [last] == xs;
    FilterConcat(p, front, [last]);
    assert Filter(p, [last]) == if p(last) then [last] else [];
  }

  /** One more task adds at most itself to a chain of two filters. */
  function Chain(tasks: seq<Task>, code: string): seq<Task> {
    AssignedTo(Active(tasks), code)
  }

  lemma ChainGrows(tasks: seq<Task>, code: string)
    requires tasks != []
    ensures var t := tasks[|tasks| - 1];
            Chain(tasks, code) == Chain(tasks[..|tasks| - 1], code)
                                  + (if !t.archived && t.assignee == Some(code) then [t] else [])
  {
    var t := tasks[|tasks| - 1];
    FilterLast((t: Task) => !t.archived, tasks);
    FilterConcat((t: Task) => t.assignee == Some(code), Active(tasks[..|tasks| - 1]), if t.archived then [] else [t]);
  }

  /** The four simple counts of a list of tasks. */
  function SimpleCounts(tasks: seq<Task>, asOf: Option<int>): Counts {
    Counts(|Open(tasks)|, |Blocked(tasks)|, |Urgent(Open(tasks))|, |Overdue(Open(tasks), asOf)|)
  }

  lemma FilterGrows<T(!new)>(p: T -> bool, xs: seq<T>, x: T)
    ensures |Filter(p, xs + [x])| == |Filter(p, xs)| + One(p(x))
  {
    FilterConcat(p, xs, [x]);
  }

  lemma OpenGrows(tasks: seq<Task>, t: Task)
    ensures Open(tasks + [t]) == Open(tasks) + (if IsOpen(t) then [t] else [])
  {
    FilterConcat(IsOpen, tasks, [t]);
  }

  lemma OpenUrgentGrow(tasks: seq<Task>, t: Task)
    ensures |Urgent(Open(tasks + [t]))| == |Urgent(Open(tasks))| + One(IsOpen(t) && t.urgent)
  {
    OpenGrows(tasks, t);
    FilterGrows((t: Task) => t.urgent, Open(tasks), t);
    assert Open(tasks) + [] == Open(tasks);
  }

  lemma OpenOverdueGrow(tasks: seq<Task>, t: Task, asOf: Option<int>)
    ensures |Overdue(Open(tasks + [t]), asOf)| == |Overdue(Open(tasks), asOf)| + One(IsOpen(t) && IsOverdue(t, asOf))
  {
    OpenGrows(tasks, t);
    FilterGrows((t: Task) => IsOverdue(t, asOf), Open(tasks), t);
    assert Open(tasks) + [] == Open(tasks);
  }

  lemma SimpleCountsGrow(tasks: seq<Task>, t: Task, asOf: Option<int>)
    ensures SimpleCounts(tasks + [t], asOf) == Add(SimpleCounts(tasks, asOf), t, asOf)
  {
    FilterGrows(IsOpen, tasks, t);
    FilterGrows((t: Task) => t.category == BLOCKED, tasks, t);
    OpenUrgentGrow(tasks, t);
    OpenOverdueGrow(tasks, t, asOf);
  }

  lemma GroupedGrows(tasks: seq<Task>, codes: set<string>, asOf: Option<int>, code: string)
    requires code in codes && tasks != []
    ensures var t := tasks[|tasks| - 1];
            var before := CountsOf(Grouped(tasks[..|tasks| - 1], codes, asOf), code);
            CountsOf(Grouped(tasks, codes, asOf), code)
            == if !t.archived && t.assignee == Some(code) then Add(before, t, asOf) else before
  {
  }

  /** Grouping counts the same tasks as chaining the definitions, person by person. */
  lemma {:induction false} GroupedCountsAgree(tasks: seq<Task>, codes: set<string>, asOf: Option<int>, code: string)
    requires code in codes
    ensures CountsOf(Grouped(tasks, codes, asOf), code) == SimpleCounts(Chain(tasks, code), asOf)
  {
    if tasks != [] {
      var front := tasks[..|tasks| - 1];
      GroupedCountsAgree(front, codes, asOf, code);
      GroupedGrows(tasks, codes, asOf, code);
      ChainGrows(tasks, code);
      SimpleCountsGrow(Chain(front, code), tasks[|tasks| - 1], asOf);
      assert Chain(front, code) + [] == Chain(front, code);
    }
  }

  function OwnedBy(projects: seq<Project>, code: string): seq<Project> {
    Filter((p: Project) => !p.archived && p.owner == Some(code), projects)
  }

  lemma {:induction false} GroupedProjectsAgree(projects: seq<Project>, codes: set<string>, code: string)
    requires code in codes
    ensures var groups := GroupedProjects(projects, codes);
            (if code in groups then groups[code] else 0) == |OwnedBy(projects, code)|
  {
    if projects != [] {
      GroupedProjectsAgree(projects[..|projects| - 1], codes, code);
      FilterLast((p: Project) => !p.archived && p.owner == Some(code), projects);
    }
  }

  lemma {:induction false} FilterNoLonger<T(!new)>(p: T -> bool, q: T -> bool, xs: seq<T>)
    requires forall x :: x in xs && p(x) ==> q(x)
    ensures |Filter(p, xs)| <= |Filter(q, xs)|
  {
    if xs != [] {
      FilterNoLonger(p, q, xs[1..]);
    }
  }

  lemma CategoriesDiffer()
    ensures BLOCKED != DONE && BLOCKED != CANCELLED
  {
  }

  /**
    Each known person's entry is the simple counts over their unremoved tasks and projects; nothing
    exceeds what is open; exactly the known people asked for appear; and without a date nothing is overdue.
  */
  lemma LoadsAreTheSimpleCounts(requested: seq<string>, capacities: map<string, nat>, tasks: seq<Task>,
                                projects: seq<Project>, asOf: Option<int>, code: string)
    ensures var loads := OwnerLoads(requested, capacities, tasks, projects, asOf);
            && (code in loads <==> code in requested && code in capacities)
            && (code in loads ==>
                  var mine := Chain(tasks, code);
                  var l := loads[code];
                  && Counts(l.open, l.blocked, l.urgent, l.overdue) == SimpleCounts(mine, asOf)
                  && l.owned == |OwnedBy(projects, code)| && l.capacity == capacities[code]
                  && (IsOverloaded(l) <==> |Open(mine)| > capacities[code])
                  && l.blocked <= l.open && l.urgent <= l.open && l.overdue <= l.open
                  && (asOf.None? ==> l.overdue == 0))
  {
    var loads := OwnerLoads(requested, capacities, tasks, projects, asOf);
    if code in loads {
      var known := set c | c in requested && c in capacities;
      GroupedCountsAgree(tasks, known, asOf, code);
      GroupedProjectsAgree(projects, known, code);
      CategoriesDiffer();
      var mine := Chain(tasks, code);
      FilterNoLonger((t: Task) => t.category == BLOCKED, IsOpen, mine);
      if asOf.None? {
        NothingPasses((t: Task) => IsOverdue(t, asOf), Open(mine));
      }
    }
  }

  lemma {:induction false} NothingPasses<T(!new)>(p: T -> bool, xs: seq<T>)
    requires forall x :: x in xs ==> !p(x)
    ensures Filter(p, xs) == []
  {
    if xs != [] {
      NothingPasses(p, xs[1..]);
    }
  }

  /** What the lists hold, by the columns: a task due today is not overdue, and a closed one is never late. */
  lemma ListsHoldWhatTheyName(tasks: seq<Task>, code: string, asOf: Option<int>, t: Task)
    ensures t in Chain(tasks, code) <==> t in tasks && !t.archived && t.assignee == Some(code)
    ensures t in Open(tasks) <==> t in tasks && t.category !in { "DONE", "CANCELLED" }
    ensures t in Blocked(tasks) <==> t in tasks && t.category == "BLOCKED"
    ensures t in Urgent(Open(tasks)) <==> t in Open(tasks) && t.urgent
    ensures t in Overdue(Open(tasks), asOf)
            <==> t in Open(tasks) && asOf.Some? && t.due.Some? && t.due.value < asOf.value
    ensures asOf.Some? && t.due == asOf ==> t !in Overdue(tasks, asOf)
  {
  }

  // --- Conservation ----------------------------------------------------------------------------------

  /** The open tasks of the people in the list. */
  function SumOpen(groups: map<string, Counts>, codes: seq<string>): nat {
    if codes == [] then 0 else SumOpen(groups, codes[..|codes| - 1]) + CountsOf(groups, codes[|codes| - 1]).open
  }

  predicate CarriedBy(t: Task, codes: seq<string>) {
    !t.archived && IsOpen(t) && t.assignee.Some? && t.assignee.value in codes
  }

  /** One more open task of `who` raises exactly `who`'s count. */
  lemma {:induction false} SumOpenUpdate(groups: map<string, Counts>, codes: seq<string>, who: string, c: Counts)
    requires NoRepeats(codes)
    ensures SumOpen(groups[who := c], codes) + (if who in codes then CountsOf(groups, who).open else 0)
            == SumOpen(groups, codes) + (if who in codes then c.open else 0)
  {
    if codes != [] {
      var front, last := codes[..|codes| - 1], codes[|codes| - 1];
      SumOpenUpdate(groups, front, who, c);
      assert codes == front + [last];
      assert last !in front;
    }
  }

  lemma {:induction false} SumOfNothing(codes: seq<string>)
    ensures SumOpen(map[], codes) == 0
  {
    if codes != [] {
      SumOfNothing(codes[..|codes| - 1]);
    }
  }

  /**
    Summed over people, the open counts are the open unremoved tasks assigned to them: none is lost or
    counted twice.
  */
  lemma {:induction false} OpenTasksAreConserved(tasks: seq<Task>, codes: seq<string>, asOf: Option<int>)
    requires NoRepeats(codes)
    ensures SumOpen(Grouped(tasks, (set c | c in codes), asOf), codes)
            == |Filter((t: Task) => CarriedBy(t, codes), tasks)|
  {
    if tasks == [] {
      SumOfNothing(codes);
    } else {
      var front, t := tasks[..|tasks| - 1], tasks[|tasks| - 1];
      var groups := Grouped(front, (set c | c in codes), asOf);
      OpenTasksAreConserved(front, codes, asOf);
      FilterLast((t: Task) => CarriedBy(t, codes), tasks);
      if t.assignee.Some? {
        SumOpenUpdate(groups, codes, t.assignee.value, Add(CountsOf(groups, t.assignee.value), t, asOf));
      }
    }
  }
}
