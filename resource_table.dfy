/** The host's resource table: a handle-indexed store of payloads with an
    optional owner edge per entry.

    The table itself belongs to the sandboxing runtime and is not part of
    this model's source; what is modelled is the contract the host relies
    on: `Push` hands out a handle that is not live, `PushChild` fails when
    the parent is not live, and the typed `Get`, `Delete` and mutable access
    fail when the handle is not live or holds a payload of another type.
    `Delete` also fails on an entry that still owns live children. */
module ResourceTables {
  import opened Outcomes
  import opened Payloads

  /** The guest-visible name of a table entry. */
  type Handle = nat

  datatype Entry = Entry(payload: Payload, owner: Option<Handle>)

  /** Handle `h` is live and holds a payload of kind `k`. */
  predicate IsLive(e: map<Handle, Entry>, h: Handle, k: Kind) {
    h in e && KindOf(e[h].payload) == k
  }

  /** Some live entry is registered as a child of `h`. */
  predicate HasChildren(e: map<Handle, Entry>, h: Handle) {
    exists c :: c in e && e[c].owner == Some(h)
  }

  /** `h` was not live in `before`, and `after` is `before` with exactly the
      entry `en` added under `h`. */
  ghost predicate Registered(before: map<Handle, Entry>, after: map<Handle, Entry>, h: Handle, en: Entry) {
    h !in before && after == before[h := en]
  }

  /** The effect of a typed delete on the entries: the remaining entries and
      the payload handed back, or `Abort`. */
  function Take(e: map<Handle, Entry>, h: Handle, k: Kind): (r: Outcome<(map<Handle, Entry>, Payload)>)
    ensures r.Ok? <==> IsLive(e, h, k) && !HasChildren(e, h)
    ensures r.Ok? ==> r.value.0 == e - {h} && r.value.1 == e[h].payload && KindOf(r.value.1) == k
  {
    if IsLive(e, h, k) && !HasChildren(e, h) then Ok((e - {h}, e[h].payload)) else Abort
  }

  class ResourceTable {
    var entries: map<Handle, Entry>
    /** The counter that supplies handles that are not live. */
    var next: Handle

    /** Every live handle lies below the counter, and every owner of a live
        entry is itself live. */
    ghost predicate Valid()
      reads this
    {
      && (forall h :: h in entries ==> h < next)
      && (forall h :: h in entries && entries[h].owner.Some? ==> entries[h].owner.value in entries)
    }

    constructor ()
      ensures Valid() && entries == map[]
    {
      entries := map[];
      next := 0;
    }

    /** Registers `p` with no owner under a handle that is not live. */
    method Push(p: Payload) returns (h: Handle)
      requires Valid()
      modifies this
      ensures Valid()
      ensures Registered(old(entries), entries, h, Entry(p, None))
    {
      h := next;
      entries := entries[h := Entry(p, None)];
      next := next + 1;
    }

    /** Registers `p` as a child of `parent`; aborts when `parent` is not live. */
    method PushChild(p: Payload, parent: Handle) returns (r: Outcome<Handle>)
      requires Valid()
      modifies this
      ensures Valid()
      ensures r.Ok? <==> parent in old(entries)
      ensures r.Ok? ==> Registered(old(entries), entries, r.value, Entry(p, Some(parent)))
      ensures r.Abort? ==> entries == old(entries)
    {
      if parent !in entries {
        return Abort;
      }
      r := Ok(next);
      entries := entries[next := Entry(p, Some(parent))];
      next := next + 1;
    }

    /** Typed shared lookup. */
    function Get(h: Handle, k: Kind): (r: Outcome<Payload>)
      reads this
      ensures r.Ok? <==> IsLive(entries, h, k)
      ensures r.Ok? ==> h in entries && r.value == entries[h].payload && KindOf(r.value) == k
    {
      if IsLive(entries, h, k) then Ok(entries[h].payload) else Abort
    }

    /** What a write through the reference `get_mut` returns amounts to: the
        payload of a live entry is replaced and its owner kept. */
    method Store(h: Handle, p: Payload)
      requires Valid() && h in entries
      modifies this
      ensures Valid()
      ensures entries == old(entries)[h := Entry(p, old(entries)[h].owner)]
    {
      entries := entries[h := Entry(p, entries[h].owner)];
    }

    /** Typed delete: removes the entry and hands back its payload. */
    method Delete(h: Handle, k: Kind) returns (r: Outcome<Payload>)
      requires Valid()
      modifies this
      ensures Valid()
      ensures r.Ok? <==> Take(old(entries), h, k).Ok?
      ensures r.Ok? ==> entries == Take(old(entries), h, k).value.0 && r.value == Take(old(entries), h, k).value.1
      ensures r.Abort? ==> entries == old(entries)
    {
      var t := Take(entries, h, k);
      if t.Abort? {
        return Abort;
      }
      assert forall c :: c in t.value.0 ==> c in entries && c != h && t.value.0[c] == entries[c];
      entries := t.value.0;
      r := Ok(t.value.1);
    }
  }
}
