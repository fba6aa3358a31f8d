/** The in-memory cron table of the snapshot handler, and its two operations. */
module CronTable {
  /** An entry of the cron library: its id, the backup it belongs to, its expression. */
  datatype Entry = Entry(id: nat, name: string, schedule: string)

  /** The schedules that the table holds for one backup, oldest first. */
  function Of(entries: seq<Entry>, name: string): seq<string> {
    if entries == [] then []
    else (if entries[0].name == name then [entries[0].schedule] else []) + Of(entries[1..], name)
  }

  function Without(entries: seq<Entry>, name: string): seq<Entry> {
    if entries == [] then []
    else (if entries[0].name == name then [] else [entries[0]]) + Without(entries[1..], name)
  }

  function WithoutId(entries: seq<Entry>, id: nat): seq<Entry> {
    if entries == [] then []
    else (if entries[0].id == id then [] else [entries[0]]) + WithoutId(entries[1..], id)
  }

  predicate Distinct(entries: seq<Entry>) {
    forall i, j :: 0 <= i < j < |entries| ==> entries[i].id != entries[j].id
  }

  lemma {:induction false} OfAppend(a: seq<Entry>, b: seq<Entry>, name: string)
    ensures Of(a + b, name) == Of(a, name) + Of(b, name)
  {
    if a == [] {
      assert a + b == b;
    } else {
      assert (a + b)[1..] == a[1..] + b;
      OfAppend(a[1..], b, name);
    }
  }

  /** Removing one backup takes all of its entries and nobody else's. */
  lemma {:induction false} OfWithout(entries: seq<Entry>, name: string, other: string)
    ensures Of(Without(entries, name), other) == if other == name then [] else Of(entries, other)
  {
    if entries != [] {
      var head := if entries[0].name == name then [] else [entries[0]];
      OfAppend(head, Without(entries[1..], name), other);
      OfWithout(entries[1..], name, other);
      assert head != [] ==> head[1..] == [];
    }
  }

  lemma {:induction false} WithoutAppend(a: seq<Entry>, b: seq<Entry>, name: string)
    ensures Without(a + b, name) == Without(a, name) + Without(b, name)
  {
    if a == [] {
      assert a + b == b;
    } else {
      assert (a + b)[1..] == a[1..] + b;
      WithoutAppend(a[1..], b, name);
    }
  }

  lemma {:induction false} WithoutFewer(entries: seq<Entry>, name: string, e: Entry)
    requires e in Without(entries, name)
    ensures e in entries && e.name != name
  {
    if entries[0].name == name || e != entries[0] {
      assert e in Without(entries[1..], name);
      WithoutFewer(entries[1..], name, e);
    }
  }

  lemma {:induction false} WithoutAbsentId(entries: seq<Entry>, id: nat)
    requires forall e :: e in entries ==> e.id != id
    ensures WithoutId(entries, id) == entries
  {
    if entries != [] {
      WithoutAbsentId(entries[1..], id);
      assert entries == [entries[0]] + entries[1..];
    }
  }

  lemma {:induction false} WithoutIdAppend(a: seq<Entry>, b: seq<Entry>, id: nat)
    ensures WithoutId(a + b, id) == WithoutId(a, id) + WithoutId(b, id)
  {
    if a == [] {
      assert a + b == b;
    } else {
      assert (a + b)[1..] == a[1..] + b;
      WithoutIdAppend(a[1..], b, id);
    }
  }

  lemma {:induction false} WithoutDistinct(entries: seq<Entry>, name: string)
    requires Distinct(entries)
    ensures Distinct(Without(entries, name))
  {
    if entries != [] {
      WithoutDistinct(entries[1..], name);
      forall e | e in Without(entries[1..], name) ensures e.id != entries[0].id {
        WithoutFewer(entries[1..], name, e);
      }
    }
  }

  /** One turn of the removal loop: done up to i, the rest as it was. */
  lemma RemovalTurn(entries: seq<Entry>, name: string, i: nat)
    requires Distinct(entries) && i < |entries| && entries[i].name == name
    ensures WithoutId(Without(entries[..i], name) + entries[i..], entries[i].id)
         == Without(entries[..i + 1], name) + entries[i + 1..]
  {
    var e, done, rest := entries[i], Without(entries[..i], name), entries[i + 1..];
    assert entries[i..] == [e] + rest;
    forall d | d in done ensures d.id != e.id { WithoutFewer(entries[..i], name, d); }
    assert forall d :: d in rest ==> d.id != e.id;
    hide Distinct;
    CutOne(done, e, rest);
    WithoutLast(entries, name, i);
  }

  lemma CutOne(a: seq<Entry>, e: Entry, b: seq<Entry>)
    requires forall d :: d in a + b ==> d.id != e.id
    ensures WithoutId(a + ([e] + b), e.id) == a + b
  {
    CutHead(e, b);
    hide WithoutId;
    WithoutIdAppend(a, [e] + b, e.id);
    WithoutAbsentId(a, e.id);
    WithoutAbsentId(b, e.id);
  }

  lemma CutHead(e: Entry, b: seq<Entry>)
    ensures WithoutId([e] + b, e.id) == WithoutId(b, e.id)
  {
    assert ([e] + b)[1..] == b;
  }

  lemma WithoutLast(entries: seq<Entry>, name: string, i: nat)
    requires i < |entries|
    ensures Without(entries[..i + 1], name) == Without(entries[..i], name) + if entries[i].name == name then [] else [entries[i]]
  {
    assert entries[..i + 1] == entries[..i] + [entries[i]];
    WithoutAppend(entries[..i], [entries[i]], name);
  }

  lemma KeepTurn(entries: seq<Entry>, name: string, i: nat)
    requires i < |entries| && entries[i].name != name
    ensures Without(entries[..i], name) + entries[i..] == Without(entries[..i + 1], name) + entries[i + 1..]
  {
    WithoutLast(entries, name, i);
    assert entries[i..] == [entries[i]] + entries[i + 1..];
  }

  /** The table after CreateSchedule: the backup's old entries are gone, and the new one is
      there unless the cron library refuses the expression. */
  function Rescheduled(entries: seq<Entry>, id: nat, name: string, schedule: string, accepted: bool): seq<Entry> {
    Without(entries, name) + if accepted then [Entry(id, name, schedule)] else []
  }

  lemma OfRescheduled(entries: seq<Entry>, id: nat, name: string, schedule: string, accepted: bool, other: string)
    ensures Of(Rescheduled(entries, id, name, schedule, accepted), other)
         == if other != name then Of(entries, other) else if accepted then [schedule] else []
  {
    var added := if accepted then [Entry(id, name, schedule)] else [];
    OfAppend(Without(entries, name), added, other);
    OfWithout(entries, name, other);
    assert added != [] ==> added[1..] == [];
  }

  /** The cron object of the handler. */
  class Cron {
    var entries: seq<Entry>
    var lastId: nat
    const accepts: string -> bool   // the expression parser of the cron library

    ghost predicate Valid()
      reads this
    {
      Distinct(entries) && forall e :: e in entries ==> e.id <= lastId
    }

    constructor (accepts: string -> bool)
      ensures Valid() && entries == [] && this.accepts == accepts
    {
      entries, lastId, this.accepts := [], 0, accepts;
    }

    method Remove(id: nat)
      modifies this`entries
      ensures entries == WithoutId(old(entries), id)
    {
      entries := WithoutId(entries, id);
    }

    method AddJob(schedule: string, name: string) returns (ok: bool)
      modifies this
      ensures ok == accepts(schedule)
      ensures lastId == old(lastId) + if ok then 1 else 0
      ensures entries == old(entries) + if ok then [Entry(lastId, name, schedule)] else []
    {
      ok := accepts(schedule);
      if ok {
        lastId := lastId + 1;
        entries := entries + [Entry(lastId, name, schedule)];
      }
    }

    /** Walks a copy of the table and removes each matching entry by its id. */
    method RemoveFromSchedule(name: string)
      requires Valid()
      modifies this`entries
      ensures Valid()
      ensures entries == Without(old(entries), name)
    {
      var copy := entries;
      for i := 0 to |copy|
        invariant entries == Without(copy[..i], name) + copy[i..]
      {
        if copy[i].name == name {
          RemovalTurn(copy, name, i);
          Remove(copy[i].id);
        } else {
          KeepTurn(copy, name, i);
        }
      }
      assert copy[..|copy|] == copy;
      WithoutDistinct(copy, name);
      forall e | e in entries ensures e.id <= lastId { WithoutFewer(copy, name, e); }
    }

    method CreateSchedule(name: string, schedule: string) returns (ok: bool)
      requires Valid()
      modifies this
      ensures Valid()
      ensures ok == accepts(schedule)
      ensures entries == Rescheduled(old(entries), lastId, name, schedule, ok)
    {
      RemoveFromSchedule(name);
      ok := AddJob(schedule, name);
    }
  }
}
