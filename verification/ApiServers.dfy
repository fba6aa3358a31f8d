/** The retry loop of the handlers' update, against a server that other clients write to. */
module ApiServers {
  import opened Versioned

  /** The server as a value: its objects and its resource version counter. */
  datatype Server<T> = Server(objects: map<string, Obj<T>>, rv: nat)

  ghost predicate Valid<T>(s: Server<T>) {
    forall id :: id in s.objects ==> s.objects[id].version <= s.rv
  }

  /** One update request: accepted with a new version, or refused as a conflict. */
  function Serve<T>(s: Server<T>, w: Write<T>): Server<T> {
    if Fresh(s.objects, w) then Server(s.objects[w.id := Obj(s.rv + 1, w.next)], s.rv + 1) else s
  }

  function ServeAll<T>(s: Server<T>, ws: seq<Write<T>>): Server<T>
    decreases |ws|
  {
    if ws == [] then s else ServeAll(Serve(s, ws[0]), ws[1..])
  }

  function Flatten<T>(wss: seq<seq<T>>): seq<T> {
    if wss == [] then [] else wss[0] + Flatten(wss[1..])
  }

  lemma {:induction false} ServeAllAppend<T>(s: Server<T>, a: seq<Write<T>>, b: seq<Write<T>>)
    ensures ServeAll(s, a + b) == ServeAll(ServeAll(s, a), b)
    decreases |a|
  {
    if a == [] {
      assert a + b == b;
    } else {
      assert (a + b)[0] == a[0] && (a + b)[1..] == a[1..] + b;
      ServeAllAppend(Serve(s, a[0]), a[1..], b);
    }
  }

  /** An accepted update is stored as it was sent, under a version that no object had before, and
      touches nothing else; a refused one touches nothing. */
  lemma ServeStores<T>(s: Server<T>, w: Write<T>)
    requires Valid(s)
    ensures
      var t := Serve(s, w);
      && Valid(t) && t.objects.Keys == s.objects.Keys
      && (forall id :: id in t.objects && (id != w.id || !Fresh(s.objects, w)) ==> t.objects[id] == s.objects[id])
      && (Fresh(s.objects, w) ==>
            && t.objects[w.id].spec == w.next
            && forall id :: id in s.objects ==> s.objects[id].version < t.objects[w.id].version)
  {
  }

  /** A version that has been passed never comes back. */
  lemma {:induction false} StaleStaysStale<T>(s: Server<T>, ws: seq<Write<T>>, w: Write<T>)
    requires Valid(s) && w.version <= s.rv && !Fresh(s.objects, w)
    ensures Valid(ServeAll(s, ws)) && s.rv <= ServeAll(s, ws).rv && !Fresh(ServeAll(s, ws).objects, w)
    decreases |ws|
  {
    if ws != [] { StaleStaysStale(Serve(s, ws[0]), ws[1..], w); }
  }

  lemma {:induction false} ServeAllValid<T>(s: Server<T>, ws: seq<Write<T>>)
    requires Valid(s)
    ensures Valid(ServeAll(s, ws)) && s.rv <= ServeAll(s, ws).rv
    decreases |ws|
  {
    if ws != [] { ServeAllValid(Serve(s, ws[0]), ws[1..]); }
  }

  lemma {:induction false} FlattenMore<T>(wss: seq<seq<T>>, ws: seq<T>)
    ensures Flatten(wss + [ws]) == Flatten(wss) + ws
  {
    if wss == [] {
      assert wss + [ws] == [ws];
      assert [ws][1..] == [];
    } else {
      assert (wss + [ws])[1..] == wss[1..] + [ws];
      FlattenMore(wss[1..], ws);
    }
  }

  class ApiServer<T(==)> {
    var objects: map<string, Obj<T>>
    var rv: nat

    ghost function Now(): Server<T>
      reads this
    {
      Server(objects, rv)
    }

    method Put(w: Write<T>) returns (ok: bool)
      modifies this
      ensures ok <==> Fresh(old(objects), w)
      ensures Now() == Serve(old(Now()), w)
    {
      ok := w.id in objects && objects[w.id].version == w.version;
      if ok {
        rv := rv + 1;
        objects := objects[w.id := Obj(rv, w.next)];
      }
    }

    method PutAll(ws: seq<Write<T>>)
      modifies this
      ensures Now() == ServeAll(old(Now()), ws)
    {
      for i := 0 to |ws|
        invariant ServeAll(Now(), ws[i..]) == ServeAll(old(Now()), ws)
      {
        assert ws[i..][0] == ws[i] && ws[i..][1..] == ws[i + 1..];
        var _ := Put(ws[i]);
      }
      assert ws[|ws|..] == [];
    }

    /** `others[i]` reaches the server before attempt i, and the deadline falls after the last
        of them. A conflict sends the same version again, so only the first attempt can
        succeed: later ones never overwrite what came in between. */
    method UpdateWithRetry(w: Write<T>, others: seq<seq<Write<T>>>) returns (ok: bool)
      requires Valid(Now()) && w.version <= rv
      modifies this
      ensures ok <==> others != [] && Fresh(ServeAll(old(Now()), others[0]).objects, w)
      ensures ok ==> Now() == Serve(ServeAll(old(Now()), others[0]), w)
      ensures ok ==> w.id in objects && objects[w.id].spec == w.next && objects[w.id].version == rv > old(rv)
      ensures !ok ==> Now() == ServeAll(old(Now()), Flatten(others))
    {
      ok := false;
      for i := 0 to |others|
        invariant Valid(Now()) && old(rv) <= rv && !ok
        invariant Now() == ServeAll(old(Now()), Flatten(others[..i]))
        invariant i > 0 ==> !Fresh(objects, w) && !Fresh(ServeAll(old(Now()), others[0]).objects, w)
      {
        ghost var before := Now();
        ServeAllValid(before, others[i]);
        if i > 0 { StaleStaysStale(before, others[i], w); }
        PutAll(others[i]);
        assert i == 0 ==> others[..i] == [];
        FlattenMore(others[..i], others[i]);
        assert others[..i] + [others[i]] == others[..i + 1];
        ServeAllAppend(old(Now()), Flatten(others[..i]), others[i]);
        ok := Put(w);
        if ok { return; }
      }
      assert others[..|others|] == others;
    }
  }
}
