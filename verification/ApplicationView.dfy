/** The list of active and swapped processes every controller and worker keeps. */
module ApplicationView {
  import opened Bytes

  type Name = seq<byte>

  const ACTIVE: int := 1

  datatype View = View(active: seq<Name>, swapped: seq<Name>)

  /** A change announced by the control plane; any status but ACTIVE means swapped. */
  datatype Change = Change(status: int32, id: Name)

  /** The index of the first occurrence, or the length of the list. */
  function Find(s: seq<Name>, x: Name): (i: nat)
    ensures i <= |s| && x !in s[..i]
    ensures i < |s| ==> s[i] == x
  {
    if s == [] || s[0] == x then 0 else 1 + Find(s[1..], x)
  }

  function Apply(v: View, u: Change): View {
    if u.status == ACTIVE then v.(active := v.active + [u.id])
    else
      var i := Find(v.active, u.id);
      if i == |v.active| then v
      else View(Without(v.active, i), v.swapped + [v.active[i]])
  }

  function ApplyAll(v: View, us: seq<Change>): View
    decreases us
  {
    if us == [] then v else ApplyAll(Apply(v, us[0]), us[1..])
  }

  class Application {
    var active: seq<Name>
    var swapped: seq<Name>

    ghost function State(): View
      reads this
    {
      View(active, swapped)
    }

    constructor (names: seq<Name>)
      ensures State() == View(names, [])
    {
      active, swapped := names, [];
    }

    method Update(status: int32, id: Name)
      modifies this
      ensures State() == Apply(old(State()), Change(status, id))
    {
      if status == ACTIVE {
        active := active + [id];
        return;
      }
      var i := 0;
      while i < |active| && active[i] != id
        invariant i <= |active| && Find(active, id) == i + Find(active[i..], id)
      {
        assert active[i..][1..] == active[i + 1..];
        i := i + 1;
      }
      if i < |active| {
        swapped := swapped + [active[i]];
        active := active[..i] + active[i + 1..];
      }
    }
  }

  // --------------------------------------------------------------- conservation

  function Announced(us: seq<Change>): multiset<Name> {
    if us == [] then multiset{}
    else (if us[0].status == ACTIVE then multiset{us[0].id} else multiset{}) + Announced(us[1..])
  }

  lemma WithoutElements(s: seq<Name>, i: nat)
    requires i < |s|
    ensures multiset(s) == multiset(Without(s, i)) + multiset{s[i]}
  {
    assert s == s[..i] + [s[i]] + s[i + 1..];
  }

  /** Nothing announced is lost or duplicated: swapping only moves names between the lists. */
  lemma {:induction false} AnnouncedAreListed(v: View, us: seq<Change>)
    ensures var w := ApplyAll(v, us);
      multiset(w.active) + multiset(w.swapped) == multiset(v.active) + multiset(v.swapped) + Announced(us)
    decreases us
  {
    if us != [] {
      var i := Find(v.active, us[0].id);
      if us[0].status != ACTIVE && i < |v.active| {
        WithoutElements(v.active, i);
      }
      AnnouncedAreListed(Apply(v, us[0]), us[1..]);
    }
  }

  /** How often a name is active and how often swapped. */
  datatype Count = Count(active: nat, swapped: nat)

  /** What an announcement does to a name's count: swapping it while it is not active changes nothing. */
  function Counted(c: Count, u: Change, x: Name): Count {
    if u.id != x then c
    else if u.status == ACTIVE then c.(active := c.active + 1)
    else if c.active > 0 then Count(c.active - 1, c.swapped + 1)
    else c
  }

  function CountedAll(c: Count, us: seq<Change>, x: Name): Count
    decreases us
  {
    if us == [] then c else CountedAll(Counted(c, us[0], x), us[1..], x)
  }

  function CountOf(v: View, x: Name): Count {
    Count(multiset(v.active)[x], multiset(v.swapped)[x])
  }

  lemma FoundIffListed(s: seq<Name>, x: Name)
    ensures Find(s, x) < |s| <==> multiset(s)[x] > 0
  {
    var i := Find(s, x);
    if i < |s| {
      assert s[i] in multiset(s);
    } else {
      assert s[..i] == s;
    }
  }

  lemma OneMoreListed(s: seq<Name>, y: Name, x: Name)
    ensures multiset(s + [y])[x] == multiset(s)[x] + One(x == y)
  {
  }

  lemma ApplyCounts(v: View, u: Change, x: Name)
    ensures CountOf(Apply(v, u), x) == Counted(CountOf(v, x), u, x)
  {
    FoundIffListed(v.active, u.id);
    if u.status == ACTIVE {
      OneMoreListed(v.active, u.id, x);
    } else {
      var i := Find(v.active, u.id);
      if i < |v.active| {
        WithoutElements(v.active, i);
        OneMoreListed(v.swapped, v.active[i], x);
      }
    }
  }

  /** After any updates each name is in each list as often as the announcements say. */
  lemma {:induction false} ListsFollowTheUpdates(v: View, us: seq<Change>, x: Name)
    ensures CountOf(ApplyAll(v, us), x) == CountedAll(CountOf(v, x), us, x)
    decreases us
  {
    if us != [] {
      ApplyCounts(v, us[0], x);
      ListsFollowTheUpdates(Apply(v, us[0]), us[1..], x);
    }
  }

  // ---------------------------------------------------------- replica agreement

  /** A worker starts with its own process listed; the controller starts empty. */
  predicate Agree(self: Name, controller: View, worker: View) {
    worker == View([self] + controller.active, controller.swapped)
  }

  /** Any other name is found behind the worker's own. */
  lemma FindsOther(self: Name, active: seq<Name>, id: Name)
    requires id != self
    ensures Find([self] + active, id) == 1 + Find(active, id)
    ensures Find(active, id) < |active| ==>
      Without([self] + active, 1 + Find(active, id)) == [self] + Without(active, Find(active, id))
  {
    assert ([self] + active)[1..] == active;
  }

  lemma FindsItself(self: Name, active: seq<Name>)
    ensures Find([self] + active, self) == 0 && Without([self] + active, 0) == active
  {
  }

  /** Erasing the first occurrence and putting it in front again changes nothing iff it was there. */
  lemma WasInFrontIff(self: Name, active: seq<Name>)
    requires Find(active, self) < |active|
    ensures active == [self] + Without(active, Find(active, self)) <==> active[0] == self
  {
    if active[0] == self {
      assert Find(active, self) == 0;
    }
  }

  lemma SwappingItselfIff(self: Name, c: View, w: View, u: Change)
    requires Agree(self, c, w) && u.status != ACTIVE && u.id == self
    ensures Agree(self, Apply(c, u), Apply(w, u)) <==> c.active != [] && c.active[0] == self
  {
    FindsItself(self, c.active);
    if Find(c.active, self) < |c.active| {
      WasInFrontIff(self, c.active);
    } else {
      assert |c.active| < |[self] + c.active|;
    }
  }

  /** One update keeps the lists in step unless it swaps the process itself, whose entry only
      the worker has in front. */
  lemma UpdateKeepsAgreementIff(self: Name, c: View, w: View, u: Change)
    requires Agree(self, c, w)
    ensures Agree(self, Apply(c, u), Apply(w, u)) <==>
      (u.status == ACTIVE || u.id != self || (c.active != [] && c.active[0] == self))
  {
    if u.status == ACTIVE {
      Assoc([self], c.active, [u.id]);
    } else if u.id != self {
      FindsOther(self, c.active, u.id);
    } else {
      SwappingItselfIff(self, c, w, u);
    }
  }

  /** So after any updates that do not name the process itself, the lists agree. */
  lemma {:induction false} ReplicasAgree(self: Name, c: View, w: View, us: seq<Change>)
    requires Agree(self, c, w)
    requires forall i :: 0 <= i < |us| ==> us[i].id != self
    ensures Agree(self, ApplyAll(c, us), ApplyAll(w, us))
    decreases us
  {
    if us != [] {
      UpdateKeepsAgreementIff(self, c, w, us[0]);
      ReplicasAgree(self, Apply(c, us[0]), Apply(w, us[0]), us[1..]);
    }
  }
}
