/** The ServiceNow adapter: how ordering a ticket is made repeatable by a tag, and what is left of that
    when calls die between the order and the tag. */
module ServiceNow {
  import opened Domain

  /** A requested item. The key is on it once the tagging request has taken effect. */
  datatype Item = Item(ref: TicketRef, tag: Option<Key>)

  type Items = seq<Item>

  /** A call returns a ticket, or ends in an exception or with its process. */
  datatype Ending = Died | Returned(ref: TicketRef)

  predicate TaggedAt(items: Items, key: Key, i: nat) {
    i < |items| && items[i].tag == Some(key)
  }

  ghost predicate Tagged(items: Items, key: Key) {
    exists i: nat :: TaggedAt(items, key, i)
  }

  // --- The adapter ---

  class ServiceNowTicketClient {
    var items: Items
    var groups: map<string, string>
    ghost var lookups: seq<string>

    constructor (items: Items, groups: map<string, string>)
      ensures this.items == items && this.groups == groups && lookups == []
    {
      this.items, this.groups, lookups := items, groups, [];
    }

    /** Whether a request raised. One that raised may have taken effect all the same. */
    method Raises() returns (raised: bool)
    {
      raised := *;
    }

    /** The item tagged with a key, if there is one: the search answers with one row at most. */
    method FindRitm(key: Key) returns (raised: bool, found: Option<TicketRef>)
      ensures !raised && found.Some? ==> exists i: nat :: TaggedAt(items, key, i) && found.value == items[i].ref
      ensures !raised && found.None? ==> !Tagged(items, key)
    {
      raised := Raises();
      found := None;
      for i := 0 to |items|
        invariant found.Some? ==> exists k: nat :: TaggedAt(items, key, k) && found.value == items[k].ref
        invariant found.None? ==> forall k: nat :: k < i ==> !TaggedAt(items, key, k)
      {
        if items[i].tag == Some(key) {
          assert TaggedAt(items, key, i);
          found := Some(items[i].ref);
        }
      }
    }

    /** A row of the group table looked up by name. */
    method LookupGroup(name: string) returns (raised: bool, sysId: Option<string>)
      modifies this`lookups
      ensures lookups == old(lookups) + [name]
    {
      raised, sysId := *, *;
      lookups := lookups + [name];
    }

    /** A group's id: remembered once it is known, asked for again while it is not. */
    method GroupSysId(name: string) returns (raised: bool, sysId: Option<string>)
      modifies this`groups, this`lookups
      ensures if name in old(groups) && old(groups)[name] != "" then
                !raised && sysId == Some(old(groups)[name]) && groups == old(groups) && lookups == old(lookups)
              else
                lookups == old(lookups) + [name]
                && groups == if !raised && sysId.Some? then old(groups)[name := sysId.value] else old(groups)
    {
      if name in groups && groups[name] != "" {
        return false, Some(groups[name]);
      }
      raised, sysId := LookupGroup(name);
      if !raised && sysId.Some? {
        groups := groups[name := sysId.value];
      }
    }

    /** Order the catalog item: a new requested item, not tagged yet. */
    method OrderNow(ref: TicketRef) returns (raised: bool)
      modifies this`items
      ensures items == old(items) || items == old(items) + [Item(ref, None)]
      ensures !raised ==> items == old(items) + [Item(ref, None)]
    {
      raised := Raises();
      var applied := Raises();
      if applied || !raised {
        items := items + [Item(ref, None)];
      }
    }

    /** Tag the item just ordered. An error status of this request is not looked at. */
    method Tag(key: Key) returns (raised: bool)
      requires items != []
      modifies this`items
      ensures items == old(items)
              || items == old(items)[|old(items)| - 1 := old(items)[|old(items)| - 1].(tag := Some(key))]
    {
      raised := Raises();
      var applied := Raises();
      if applied {
        items := items[|items| - 1 := items[|items| - 1].(tag := Some(key))];
      }
    }

    /** Look the key up; order, find the item ordered, and tag it, unless it is there. `placed` is the item
        the catalog makes of an order; the lookups before the order change nothing but the memo. */
    method OpenTicket(key: Key, approvalGroup: Option<string>, placed: TicketRef) returns (end: Ending)
      modifies this
      ensures Opens(old(items), key, end, items)
    {
      var raised, found := FindRitm(key);
      if raised {
        return Died;
      }
      if found.Some? {
        return Returned(found.value);
      }
      raised := Raises();  // the requester's id
      if raised {
        return Died;
      }
      if approvalGroup.Some? && approvalGroup.value != "" {
        var sysId;
        raised, sysId := GroupSysId(approvalGroup.value);
        if raised {
          return Died;
        }
      }
      raised := OrderNow(placed);
      ghost var ordered := items;
      if raised {
        assert ordered == old(items) || ordered == old(items) + [NewItem(placed, key, false)];
        return Died;
      }
      assert ordered == old(items) + [NewItem(placed, key, false)];
      raised := Raises();  // the item of this order
      if raised {
        return Died;
      }
      raised := Tag(key);
      assert items == ordered || items == old(items) + [NewItem(placed, key, true)];
      return if raised then Died else Returned(placed);
    }
  }

  // --- One call ---

  function NewItem(ref: TicketRef, key: Key, tagged: bool): Item {
    Item(ref, if tagged then Some(key) else None)
  }

  /** A call orders at most once, and only if no item is tagged with its key. */
  ghost predicate Opens(before: Items, key: Key, end: Ending, after: Items) {
    if Tagged(before, key) then
      after == before && (end.Returned? ==> exists i: nat :: TaggedAt(before, key, i) && end.ref == before[i].ref)
    else
      (after == before && end.Died?)
      || exists ref, tagged :: after == before + [NewItem(ref, key, tagged)] && (end.Returned? ==> end.ref == ref)
  }

  // --- Any number of calls ---

  /** Calls with one key, none of which overlaps another. */
  ghost predicate Calls(states: seq<Items>, key: Key, ends: seq<Ending>) {
    |states| == |ends| + 1 && forall i :: 0 <= i < |ends| ==> Opens(states[i], key, ends[i], states[i + 1])
  }

  /** Call number `i` ordered, and its tag did not take effect. */
  predicate OrderedInVain(states: seq<Items>, key: Key, i: nat)
    requires i + 1 < |states|
  {
    |states[i + 1]| == |states[i]| + 1 && states[i + 1][|states[i]|].tag != Some(key)
  }

  function InVain(states: seq<Items>, key: Key, n: nat): nat
    requires n < |states|
  {
    if n == 0 then 0 else InVain(states, key, n - 1) + if OrderedInVain(states, key, n - 1) then 1 else 0
  }

  lemma {:induction false} OrdersCounted(states: seq<Items>, key: Key, ends: seq<Ending>, n: nat)
    requires Calls(states, key, ends) && n <= |ends|
    ensures |states[0]| <= |states[n]| && states[n][..|states[0]|] == states[0]
    ensures |states[n]| - |states[0]| == InVain(states, key, n) + if Tagged(states[n], key)
          && !Tagged(states[0], key) then 1 else 0
    ensures Tagged(states[0], key) ==> states[n] == states[0]
  {
    if n > 0 {
      OrdersCounted(states, key, ends, n - 1);
      assert Opens(states[n - 1], key, ends[n - 1], states[n - 1 + 1]);
      if states[n] != states[n - 1] {
        var last := |states[n - 1]|;
        assert TaggedAt(states[n], key, last) <==> !OrderedInVain(states, key, n - 1);
        forall i: nat | TaggedAt(states[n], key, i) ensures i == last {
          assert i < last ==> TaggedAt(states[n - 1], key, i);
        }
      }
    }
  }

  /** However many calls, and wherever they die: every order but one, at most, is one whose tag did not
      take effect. */
  lemma OrdersAreBounded(states: seq<Items>, key: Key, ends: seq<Ending>)
    requires Calls(states, key, ends)
    ensures |states[|ends|]| - |states[0]| <= 1 + InVain(states, key, |ends|)
  {
    OrdersCounted(states, key, ends, |ends|);
  }

  /** Once an item is tagged nothing is ordered any more, and every call that returns gives a tagged item. */
  lemma TaggedIsFound(states: seq<Items>, key: Key, ends: seq<Ending>, i: nat, j: nat)
    requires Calls(states, key, ends) && i <= j < |ends| && Tagged(states[i], key)
    ensures states[j + 1] == states[i]
    ensures ends[j].Returned? ==> exists k: nat :: TaggedAt(states[i], key, k) && ends[j].ref == states[i][k].ref
  {
    var later, ends' := states[i..], ends[i..];
    forall m | 0 <= m < |ends'| ensures Opens(later[m], key, ends'[m], later[m + 1]) {
      assert Opens(states[i + m], key, ends[i + m], states[i + m + 1]);
    }
    OrdersCounted(later, key, ends', j - i);
    assert Opens(states[j], key, ends[j], states[j + 1]);
  }

  /** At most one item ever carries a key. */
  ghost predicate OneTagged(items: Items, key: Key) {
    forall i: nat, j: nat :: TaggedAt(items, key, i) && TaggedAt(items, key, j) ==> i == j
  }

  lemma {:induction false} OneTicketPerKey(states: seq<Items>, key: Key, ends: seq<Ending>, n: nat)
    requires Calls(states, key, ends) && n <= |ends| && OneTagged(states[0], key)
    ensures OneTagged(states[n], key)
  {
    if n > 0 {
      OneTicketPerKey(states, key, ends, n - 1);
      assert Opens(states[n - 1], key, ends[n - 1], states[n - 1 + 1]);
      if states[n] != states[n - 1] {
        forall i: nat | TaggedAt(states[n], key, i) ensures i == |states[n - 1]| {
          if i < |states[n - 1]| {
            assert TaggedAt(states[n - 1], key, i);
          }
        }
      }
    }
  }
}
