// The condition list of a status block: a slice searched by type, acting as a map.
module Conditions {
  datatype Status = True | False | Unknown

  datatype Condition<T> = Condition(ctype: T, status: Status, reason: string, message: string, since: int)

  predicate Has<T>(conditions: map<T, Status>, ctype: T, status: Status)
  {
    ctype in conditions && conditions[ctype] == status
  }

  ghost predicate UniqueTypes<T>(items: seq<Condition<T>>)
  {
    forall i, j :: 0 <= i < j < |items| ==> items[i].ctype != items[j].ctype
  }

  // The map a list stands for.
  ghost function AsMap<T>(items: seq<Condition<T>>): map<T, Status>
    requires UniqueTypes(items)
  {
    map c | c in items :: c.ctype := c.status
  }

  function Position<T(==)>(items: seq<Condition<T>>, ctype: T): (i: nat)
    ensures i <= |items|
    ensures i < |items| ==> items[i].ctype == ctype
    ensures forall j :: 0 <= j < i ==> items[j].ctype != ctype
  {
    if items == [] || items[0].ctype == ctype then 0 else 1 + Position(items[1..], ctype)
  }

  // Overwrites the entry of that type in place, or appends one. The transition time moves
  // exactly when the status does.
  function WithCondition<T(==)>(items: seq<Condition<T>>, condition: Condition<T>, now: int): seq<Condition<T>>
  {
    var i := Position(items, condition.ctype);
    if i == |items| then items + [condition.(since := now)]
    else items[i := condition.(since := if items[i].status == condition.status then items[i].since else now)]
  }

  class ConditionList<T(==)> {
    var items: seq<Condition<T>>

    constructor ()
      ensures items == []
    {
      items := [];
    }

    method SetCondition(condition: Condition<T>, now: int)
      modifies this
      ensures items == WithCondition(old(items), condition, now)
    {
      for i := 0 to |items|
        invariant items == old(items)
        invariant forall j :: 0 <= j < i ==> items[j].ctype != condition.ctype
      {
        if items[i].ctype == condition.ctype {
          var since := if items[i].status == condition.status then items[i].since else now;
          items := items[i := condition.(since := since)];
          return;
        }
      }
      items := items + [condition.(since := now)];
    }

    method HasCondition(ctype: T, status: Status) returns (found: bool)
      ensures UniqueTypes(items) ==> found == Has(AsMap(items), ctype, status)
    {
      for i := 0 to |items|
        invariant forall j :: 0 <= j < i ==> !(items[j].ctype == ctype && items[j].status == status)
      {
        if items[i].ctype == ctype && items[i].status == status {
          assert items[i] in items;
          return true;
        }
      }
      return false;
    }
  }

  // Setting a condition changes the entry of its type and no other.
  lemma EntriesAfter<T>(items: seq<Condition<T>>, condition: Condition<T>, now: int, c: Condition<T>)
    ensures var set' := WithCondition(items, condition, now);
            && (c.ctype != condition.ctype ==> (c in set' <==> c in items))
            && (c.ctype == condition.ctype && c in set' && UniqueTypes(set') ==> c.status == condition.status)
            && exists d :: d in set' && d.ctype == condition.ctype && d.status == condition.status
  {
    var set', i := WithCondition(items, condition, now), Position(items, condition.ctype);
    assert set'[i] in set' && set'[i].ctype == condition.ctype && set'[i].status == condition.status;
    if c.ctype != condition.ctype {
      if c in items {
        var j :| 0 <= j < |items| && items[j] == c;
        assert set'[j] == c;
      }
      if c in set' {
        var j :| 0 <= j < |set'| && set'[j] == c;
        assert items[j] == c;
      }
    }
  }

  // Entry by entry: those of other types stay as and where they are; the one of its type takes over
  // reason and message, and a new transition time exactly if its status changed; if there was none,
  // it comes last.
  lemma EntryByEntry<T>(items: seq<Condition<T>>, condition: Condition<T>, now: int, i: nat)
    requires UniqueTypes(items) && i < |items|
    ensures var set' := WithCondition(items, condition, now);
            var old_ := items[i];
            && |set'| == |items| + (if exists c :: c in items && c.ctype == condition.ctype then 0 else 1)
            && set'[i].ctype == old_.ctype
            && (old_.ctype != condition.ctype ==> set'[i] == old_)
            && (old_.ctype == condition.ctype ==>
                  && set'[i].status == condition.status && set'[i].reason == condition.reason && set'[i].message == condition.message
                  && set'[i].since == if old_.status == condition.status then old_.since else now)
            && (|set'| > |items| ==> set'[|items|] == condition.(since := now))
  {
    var p := Position(items, condition.ctype);
    if p < |items| {
      assert items[p] in items;
    } else {
      assert forall c :: c in items ==> c.ctype != condition.ctype;
    }
  }

  lemma StaysUnique<T>(items: seq<Condition<T>>, condition: Condition<T>, now: int)
    requires UniqueTypes(items)
    ensures UniqueTypes(WithCondition(items, condition, now))
  {
  }

  // Setting a condition is a map update, so HasCondition reads back the last value set.
  lemma SetConditionIsMapUpdate<T>(items: seq<Condition<T>>, condition: Condition<T>, now: int)
    requires UniqueTypes(items)
    ensures var set' := WithCondition(items, condition, now);
            && UniqueTypes(set')
            && AsMap(set') == AsMap(items)[condition.ctype := condition.status]
  {
    hide WithCondition, UniqueTypes;
    StaysUnique(items, condition, now);
    forall c ensures EntriesAgree(items, WithCondition(items, condition, now), condition, c) {
      EntriesAfter(items, condition, now, c);
    }
    MapAgrees(items, WithCondition(items, condition, now), condition);
  }

  ghost predicate EntriesAgree<T>(items: seq<Condition<T>>, set': seq<Condition<T>>, condition: Condition<T>, c: Condition<T>)
  {
    && (c.ctype != condition.ctype ==> (c in set' <==> c in items))
    && (c.ctype == condition.ctype && c in set' ==> c.status == condition.status)
    && exists d :: d in set' && d.ctype == condition.ctype && d.status == condition.status
  }

  lemma MapAgrees<T>(items: seq<Condition<T>>, set': seq<Condition<T>>, condition: Condition<T>)
    requires UniqueTypes(items) && UniqueTypes(set') && forall c :: EntriesAgree(items, set', condition, c)
    ensures AsMap(set') == AsMap(items)[condition.ctype := condition.status]
  {
    hide UniqueTypes;
    assert EntriesAgree(items, set', condition, condition);
    forall c | c in set' || c in items ensures EntriesAgree(items, set', condition, c) {}
  }
}
