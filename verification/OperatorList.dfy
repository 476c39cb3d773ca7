/** The cached operator names of one SIM, keyed by PLMN. */
module OperatorList {
  import opened Options
  import opened CircularList

  datatype Operator = Operator(plmn: string, longName: string, shortName: string)


  /** Index of the first entry for a PLMN, or -1. */
  function IndexOf(s: seq<Operator>, plmn: string, from: nat := 0): (i: int)
    requires from <= |s|
    decreases |s| - from
    ensures i == -1 ==> forall j :: from <= j < |s| ==> s[j].plmn != plmn
    ensures i != -1 ==> from <= i < |s| && s[i].plmn == plmn
    ensures forall j :: from <= j < i ==> s[j].plmn != plmn
  {
    if from == |s| then -1 else if s[from].plmn == plmn then from else IndexOf(s, plmn, from + 1)
  }

  function Find(s: seq<Operator>, plmn: string): Option<Operator> {
    var i := IndexOf(s, plmn);
    if i < 0 then None else Some(s[i])
  }

  function Add(s: seq<Operator>, o: Operator): seq<Operator> {
    if IndexOf(s, o.plmn) < 0 then s + [o] else s
  }

  function Drop(s: seq<Operator>, plmn: string): seq<Operator> {
    var i := IndexOf(s, plmn);
    if i < 0 then s else s[..i] + s[i + 1..]
  }

  /** A looked-up name replaces the cached one; a failed lookup changes nothing. */
  function Update(s: seq<Operator>, plmn: string, name: Option<string>): seq<Operator> {
    match name
    case None => s
    case Some(n) => Add(Drop(s, plmn), Operator(plmn, n, n))
  }

  datatype Event = AddName(o: Operator) | UpdateName(plmn: string, name: Option<string>)

  function Step(s: seq<Operator>, e: Event): seq<Operator> {
    match e
    case AddName(o) => Add(s, o)
    case UpdateName(plmn, name) => Update(s, plmn, name)
  }

  function Run(s: seq<Operator>, es: seq<Event>): seq<Operator>
    decreases |es|
  {
    if es == [] then s else Run(Step(s, es[0]), es[1..])
  }

  // ----- the list is a finite map -----

  ghost predicate Distinct(s: seq<Operator>) {
    forall i, j :: 0 <= i < j < |s| ==> s[i].plmn != s[j].plmn
  }

  lemma {:induction false} FindIs(s: seq<Operator>, i: nat)
    requires Distinct(s) && i < |s|
    ensures Find(s, s[i].plmn) == Some(s[i])
  {
  }

  /** Adding never overwrites, and is found by every later lookup of its PLMN. */
  lemma {:induction false} AddRefines(s: seq<Operator>, o: Operator, plmn: string)
    requires Distinct(s)
    ensures Distinct(Add(s, o))
    ensures Find(Add(s, o), plmn)
         == if plmn == o.plmn && Find(s, plmn) == None then Some(o) else Find(s, plmn)
  {
    var r := Add(s, o);
    if Find(s, plmn) != None {
      FindIs(r, IndexOf(s, plmn));
    } else if plmn == o.plmn {
      FindIs(r, |s|);
    }
  }

  lemma {:induction false} DropRefines(s: seq<Operator>, plmn: string, other: string)
    requires Distinct(s)
    ensures Distinct(Drop(s, plmn))
    ensures Find(Drop(s, plmn), other) == if other == plmn then None else Find(s, other)
  {
    var r, d := Drop(s, plmn), IndexOf(s, plmn);
    var i := IndexOf(s, other);
    if d >= 0 && other != plmn && i >= 0 {
      FindIs(r, if i < d then i else i - 1);
    }
  }

  /** A lookup after a successful update gives the updated name; other PLMNs keep theirs. */
  lemma {:induction false} UpdateRefines(s: seq<Operator>, plmn: string, name: Option<string>, other: string)
    requires Distinct(s)
    ensures Distinct(Update(s, plmn, name))
    ensures Find(Update(s, plmn, name), other)
         == if other == plmn && name.Some? then Some(Operator(plmn, name.value, name.value)) else Find(s, other)
  {
    if name.Some? {
      DropRefines(s, plmn, other);
      AddRefines(Drop(s, plmn), Operator(plmn, name.value, name.value), other);
    }
  }

  /** The map from PLMNs to names that a run of additions and updates stands for. */
  ghost function Effect(found: Option<Operator>, plmn: string, es: seq<Event>): Option<Operator>
    decreases |es|
  {
    if es == [] then found
    else
      var now := match es[0]
        case AddName(o) => if o.plmn == plmn && found == None then Some(o) else found
        case UpdateName(p, name) =>
          if p == plmn && name.Some? then Some(Operator(plmn, name.value, name.value)) else found;
      Effect(now, plmn, es[1..])
  }

  /** Over whole runs, PLMNs stay pairwise distinct and a lookup gives the first
      added or last updated name.  */
  lemma {:induction false} RunRefinesMap(s: seq<Operator>, es: seq<Event>, plmn: string)
    requires Distinct(s)
    ensures Distinct(Run(s, es))
    ensures Find(Run(s, es), plmn) == Effect(Find(s, plmn), plmn, es)
    decreases |es|
  {
    if es != [] {
      match es[0] {
        case AddName(o) => AddRefines(s, o, plmn);
        case UpdateName(p, name) => UpdateRefines(s, p, name, plmn);
      }
      RunRefinesMap(Step(s, es[0]), es[1..], plmn);
    }
  }

  // ----- the linked list -----

  class Cache {
    const list: List<Operator>

    ghost predicate Valid()
      reads list, list.head, list.items
    {
      list.Valid()
    }

    constructor ()
      ensures Valid() && fresh(list) && fresh(list.head) && list.Contents() == []
    {
      list := new List<Operator>(Operator("", "", ""));
    }

    /** getOperatorName */
    method GetOperatorName(plmn: string) returns (r: Option<Operator>)
      requires Valid()
      ensures r == Find(list.Contents(), plmn)
    {
      ghost var i := 0;
      ghost var s := list.Contents();
      list.Neighbours(0);
      var p := list.head.next;
      while p != list.head
        invariant i <= |s| && p == if i == |s| then list.head else list.items[i]
        invariant IndexOf(s, plmn) == IndexOf(s, plmn, i)
        decreases |s| - i
      {
        if plmn == p.data.plmn {
          return Some(p.data);
        }
        list.Neighbours(i);
        p := p.next;
        i := i + 1;
      }
      r := None;
    }

    /** addToOperatorInfoList */
    method AddToOperatorInfoList(longName: string, shortName: string, plmn: string)
      requires Valid()
      modifies list, list.head, list.items
      ensures Valid() && list.Contents() == Step(old(list.Contents()), AddName(Operator(plmn, longName, shortName)))
    {
      var cached := GetOperatorName(plmn);
      if cached.Some? {
        return;
      }
      var node := new Node<Operator>(Operator(plmn, longName, shortName));
      list.AddTail(node);
    }

    /** requestUpdateOperatorName */
    method RequestUpdateOperatorName(plmn: string, name: Option<string>)
      requires Valid()
      modifies list, list.head, list.items
      ensures Valid() && list.Contents() == Step(old(list.Contents()), UpdateName(plmn, name))
    {
      if name == None {
        return;
      }
      Unlink(plmn);
      AddToOperatorInfoList(name.value, name.value, plmn);
    }

    method Unlink(plmn: string)
      requires Valid()
      modifies list, list.head, list.items
      ensures Valid() && list.Contents() == Drop(old(list.Contents()), plmn)
      ensures forall i :: 0 <= i < |list.items| ==> list.items[i] in old(list.items)
    {
      ghost var i: nat := 0;
      ghost var s := list.Contents();
      list.Neighbours(0);
      var p := list.head.next;
      while p != list.head
        invariant Valid() && list.items == old(list.items) && list.Contents() == s
        invariant i <= |s| && p == if i == |s| then list.head else list.items[i]
        invariant IndexOf(s, plmn) == IndexOf(s, plmn, i)
        decreases |s| - i
      {
        if plmn == p.data.plmn {
          list.Remove(p, i);
          return;
        }
        list.Neighbours(i);
        p := p.next;
        i := i + 1;
      }
    }
  }
}
