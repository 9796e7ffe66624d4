/** The handler registry: what a reactor may declare, and who is dispatched for a topic. */
module Registry {
  import opened Prelude
  import opened Sorting
  import opened Text
  import opened Catalog

  const HANDLER_NAME_MAX_LENGTH: nat := 48

  /** One reactor; `handle` identifies the function object registered under the name. */
  datatype Registration = Registration(name: string, topics: set<Topic>, handle: nat)

  datatype RegisterError = InvalidRegistration | UnknownTopics(topics: set<Topic>) | NameTaken

  /** The registry is a dictionary in insertion order, so no name occurs twice. */
  ghost predicate DistinctNames(regs: seq<Registration>) {
    forall i, j :: 0 <= i < |regs| && 0 <= j < |regs| && regs[i].name == regs[j].name ==> i == j
  }

  predicate WellFormed(r: Registration) {
    1 <= |r.name| <= HANDLER_NAME_MAX_LENGTH && r.topics != {} && r.topics <= ALL_TOPICS
  }

  predicate ByName(a: Registration, b: Registration) {
    TextLe(a.name, b.name)
  }

  /** The handlers subscribed to a topic, in name order. */
  function HandlersFor(regs: seq<Registration>, topic: Topic): seq<Registration> {
    StableSort(ByName, Filter((r: Registration) => topic in r.topics, regs))
  }

  ghost predicate Subscribed(regs: seq<Registration>, topic: Topic, name: string) {
    exists r :: r in regs && r.name == name && topic in r.topics
  }

  lemma ByNameOrder()
    ensures TotalPreorder(ByName)
  {
    TextOrder();
    forall a, b, c | ByName(a, b) && ByName(b, c) ensures ByName(a, c) {
      TextLeTransitive(a.name, b.name, c.name);
    }
  }

  lemma DispatchedExactlyTheSubscribers(regs: seq<Registration>, topic: Topic)
    ensures forall r :: r in HandlersFor(regs, topic) <==> r in regs && topic in r.topics
    ensures |HandlersFor(regs, topic)| <= |regs|
  {
    var chosen := Filter((r: Registration) => topic in r.topics, regs);
    forall r ensures r in HandlersFor(regs, topic) <==> r in chosen {
      assert r in HandlersFor(regs, topic) <==> r in multiset(HandlersFor(regs, topic));
      assert r in chosen <==> r in multiset(chosen);
    }
  }

  lemma {:induction false} FilterKeepsDistinct(p: Registration -> bool, regs: seq<Registration>)
    requires DistinctNames(regs)
    ensures DistinctNames(Filter(p, regs))
  {
    if regs != [] {
      assert DistinctNames(regs[1..]);
      FilterKeepsDistinct(p, regs[1..]);
      var tail := Filter(p, regs[1..]);
      forall r | r in tail ensures r.name != regs[0].name {
        assert r in regs[1..];
      }
    }
  }

  /** Distinctness of names, as a property of the multiset of registrations. */
  ghost predicate DistinctBag(bag: multiset<Registration>) {
    forall r, q :: r in bag && q in bag && r.name == q.name ==> r == q && bag[r] == 1
  }

  lemma {:induction false} DistinctAsBag(regs: seq<Registration>)
    ensures DistinctNames(regs) ==> DistinctBag(multiset(regs))
  {
    if regs != [] && DistinctNames(regs) {
      var tail := regs[1..];
      assert DistinctNames(tail);
      DistinctAsBag(tail);
      assert regs == [regs[0]] + tail;
      assert multiset(regs) == multiset{regs[0]} + multiset(tail);
      forall r: Registration | r in multiset(tail) ensures r.name != regs[0].name {
        assert r in tail;
      }
    }
  }

  lemma RepeatedInBag(regs: seq<Registration>, i: nat, j: nat)
    requires i < j < |regs|
    ensures regs[i] == regs[j] ==> multiset(regs)[regs[i]] >= 2
  {
    if regs[i] == regs[j] {
      assert regs == regs[..i] + [regs[i]] + regs[i + 1..j] + [regs[i]] + regs[j + 1..];
    }
  }

  lemma BagDistinct(regs: seq<Registration>)
    ensures DistinctBag(multiset(regs)) ==> DistinctNames(regs)
  {
    forall i, j | 0 <= i < j < |regs| ensures regs[i] == regs[j] ==> multiset(regs)[regs[i]] >= 2 {
      RepeatedInBag(regs, i, j);
    }
    assert forall i :: 0 <= i < |regs| ==> regs[i] in multiset(regs);
  }

  /** A dispatch names no handler twice, and lists the handlers in strictly increasing name order. */
  lemma DispatchIsOrderedAndDistinct(regs: seq<Registration>, topic: Topic)
    requires DistinctNames(regs)
    ensures SortedBy(ByName, HandlersFor(regs, topic))
    ensures DistinctNames(HandlersFor(regs, topic))
  {
    var chosen := Filter((r: Registration) => topic in r.topics, regs);
    ByNameOrder();
    StableSortIsStable(ByName, chosen);
    FilterKeepsDistinct((r: Registration) => topic in r.topics, regs);
    DistinctAsBag(chosen);
    BagDistinct(HandlersFor(regs, topic));
  }

  /** Two workers that imported the handlers in different orders dispatch in the same order. */
  lemma DispatchIgnoresImportOrder(regs: seq<Registration>, other: seq<Registration>, topic: Topic)
    requires DistinctNames(regs) && multiset(regs) == multiset(other)
    ensures HandlersFor(regs, topic) == HandlersFor(other, topic)
  {
    DistinctAsBag(regs);
    BagDistinct(other);
    DispatchIsOrderedAndDistinct(regs, topic);
    DispatchIsOrderedAndDistinct(other, topic);
    ByNameOrder();
    var p := (r: Registration) => topic in r.topics;
    FilterPermutes(p, regs, other);
    var ours := HandlersFor(regs, topic);
    forall i, j | 0 <= i < |ours| && 0 <= j < |ours| && Equivalent(ByName, ours[i], ours[j])
      ensures ours[i] == ours[j]
    {
      TextLeAntisymmetric(ours[i].name, ours[j].name);
    }
    SortedPermutationUnique(ByName, ours, HandlersFor(other, topic));
  }

  lemma {:induction false} FilterBag(p: Registration -> bool, regs: seq<Registration>, r: Registration)
    ensures multiset(Filter(p, regs))[r] == if p(r) then multiset(regs)[r] else 0
  {
    if regs != [] {
      FilterBag(p, regs[1..], r);
      assert regs == [regs[0]] + regs[1..];
    }
  }

  lemma FilterPermutes(p: Registration -> bool, xs: seq<Registration>, ys: seq<Registration>)
    requires multiset(xs) == multiset(ys)
    ensures multiset(Filter(p, xs)) == multiset(Filter(p, ys))
  {
    forall r ensures multiset(Filter(p, xs))[r] == multiset(Filter(p, ys))[r] {
      FilterBag(p, xs, r);
      FilterBag(p, ys, r);
    }
  }

  /** `dict[name] = registration`: replaced in place, or appended. */
  function Put(regs: seq<Registration>, r: Registration): seq<Registration> {
    if regs == [] then [r]
    else if regs[0].name == r.name then [r] + regs[1..]
    else [regs[0]] + Put(regs[1..], r)
  }

  function Lookup(regs: seq<Registration>, name: string): Option<Registration> {
    if regs == [] then None
    else if regs[0].name == name then Some(regs[0])
    else Lookup(regs[1..], name)
  }

  lemma {:induction false} LookupFinds(regs: seq<Registration>, name: string)
    ensures Lookup(regs, name).Some? <==> exists r :: r in regs && r.name == name
    ensures Lookup(regs, name).Some? ==> Lookup(regs, name).value in regs && Lookup(regs, name).value.name == name
  {
    if regs != [] {
      LookupFinds(regs[1..], name);
      assert regs == [regs[0]] + regs[1..];
    }
  }

  lemma {:induction false} PutLooksUp(regs: seq<Registration>, r: Registration, name: string)
    ensures Lookup(Put(regs, r), name) == if name == r.name then Some(r) else Lookup(regs, name)
  {
    if regs != [] {
      PutLooksUp(regs[1..], r, name);
    }
  }

  lemma {:induction false} PutMembers(regs: seq<Registration>, r: Registration, x: Registration)
    requires DistinctNames(regs)
    ensures x in Put(regs, r) <==> x == r || (x in regs && x.name != r.name)
  {
    if regs != [] {
      assert DistinctNames(regs[1..]);
      PutMembers(regs[1..], r, x);
      assert regs == [regs[0]] + regs[1..];
      assert forall q :: q in regs[1..] ==> q.name != regs[0].name;
    }
  }

  lemma {:induction false} PutKeepsDistinct(regs: seq<Registration>, r: Registration)
    requires DistinctNames(regs)
    ensures DistinctNames(Put(regs, r))
  {
    if regs != [] && regs[0].name != r.name {
      var tail := regs[1..];
      assert DistinctNames(tail);
      PutKeepsDistinct(tail, r);
      forall x | x in Put(tail, r) ensures x.name != regs[0].name {
        PutMembers(tail, r, x);
      }
    }
  }

  class HandlerRegistry {
    var registrations: seq<Registration>

    ghost predicate Valid()
      reads this
    {
      DistinctNames(registrations) && forall r :: r in registrations ==> WellFormed(r)
    }

    constructor ()
      ensures Valid() && registrations == []
    {
      registrations := [];
    }

    /** `register_handler`: refused registrations leave the registry as it was. */
    method Register(name: string, topics: set<Topic>, handle: nat) returns (error: Option<RegisterError>)
      requires Valid()
      modifies this
      ensures Valid()
      ensures var r := Registration(name, topics, handle);
              error == if !(1 <= |name| <= HANDLER_NAME_MAX_LENGTH) || topics == {} then Some(InvalidRegistration)
                       else if !(topics <= ALL_TOPICS) then Some(UnknownTopics(topics - ALL_TOPICS))
                       else if exists q :: q in old(registrations) && q.name == name && q.handle != handle
                       then Some(NameTaken) else None
      ensures error.Some? ==> registrations == old(registrations)
      ensures error.None? ==> Lookup(registrations, name) == Some(Registration(name, topics, handle))
      ensures error.None? ==> forall other | other != name ::
                                Lookup(registrations, other) == Lookup(old(registrations), other)
    {
      if !(1 <= |name| <= HANDLER_NAME_MAX_LENGTH) || topics == {} {
        return Some(InvalidRegistration);
      }
      var unknown := topics - ALL_TOPICS;
      if unknown != {} {
        return Some(UnknownTopics(unknown));
      }
      var registration := Registration(name, topics, handle);
      var existing := Lookup(registrations, name);
      LookupFinds(registrations, name);
      assert forall q :: q in registrations && q.name == name ==> existing == Some(q);
      if existing.Some? && existing.value.handle != handle {
        return Some(NameTaken);
      }
      PutKeepsDistinct(registrations, registration);
      forall x | x in Put(registrations, registration) ensures WellFormed(x) {
        PutMembers(registrations, registration, x);
      }
      forall other ensures Lookup(Put(registrations, registration), other) ==
                           if other == name then Some(registration) else Lookup(registrations, other) {
        PutLooksUp(registrations, registration, other);
      }
      registrations := Put(registrations, registration);
      error := None;
    }
  }
}
