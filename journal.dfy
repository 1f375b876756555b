/** The journal store of components/dreams-provider.tsx: the in-memory list of dreams, the
    pending-edit ledger (dream id to full record, in the order the ids were first recorded)
    and the pending-delete list, the merge that rebuilds the list after a fetch, and the
    store whose operations change the list at once and settle the ledgers by the outcome of
    the remote call. */
module Journal {
  import opened Wrappers
  import opened Seqs
  import opened Dreams

  // ---------------------------------------------------------------------------------------
  // Storage keys

  /** The per-user part of a storage key: the email when it is non-empty, else "guest". */
  function UserPart(email: Option<string>): string {
    if email.Some? && email.value != "" then email.value else "guest"
  }

  function DreamsKey(email: Option<string>): string {
    "reverie_dreams_" + UserPart(email)
  }

  function PendingEditsKey(email: Option<string>): string {
    "reverie_pending_edits_" + UserPart(email)
  }

  function PendingDeletesKey(email: Option<string>): string {
    "reverie_pending_deletes_" + UserPart(email)
  }

  /** Two signed-in users with different emails never share a slot; a missing or empty
      email falls back to the guest slot, which a user whose email is "guest" shares. */
  lemma {:induction false} KeysPerUser(a: Option<string>, b: Option<string>)
    ensures UserPart(a) != UserPart(b) ==>
      DreamsKey(a) != DreamsKey(b) && PendingEditsKey(a) != PendingEditsKey(b)
      && PendingDeletesKey(a) != PendingDeletesKey(b)
    ensures DreamsKey(None) == DreamsKey(Some("")) == DreamsKey(Some("guest"))
  {
    if UserPart(a) != UserPart(b) {
      var p1, p2, p3 := "reverie_dreams_", "reverie_pending_edits_", "reverie_pending_deletes_";
      assert DreamsKey(a)[|p1|..] == UserPart(a) && DreamsKey(b)[|p1|..] == UserPart(b);
      assert PendingEditsKey(a)[|p2|..] == UserPart(a) && PendingEditsKey(b)[|p2|..] == UserPart(b);
      assert PendingDeletesKey(a)[|p3|..] == UserPart(a) && PendingDeletesKey(b)[|p3|..] == UserPart(b);
    }
  }

  /** The three kinds of slot never collide, whoever the users are. */
  lemma KeyFamiliesDisjoint(a: Option<string>, b: Option<string>)
    ensures DreamsKey(a) != PendingEditsKey(b)
    ensures DreamsKey(a) != PendingDeletesKey(b)
    ensures PendingEditsKey(a) != PendingDeletesKey(b)
  {
    assert DreamsKey(a)[8] == 'd' && PendingEditsKey(b)[8] == 'p' && PendingDeletesKey(b)[8] == 'p';
    assert PendingEditsKey(a)[16] == 'e' && PendingDeletesKey(b)[16] == 'd';
  }

  // ---------------------------------------------------------------------------------------
  // Operations on lists of dreams

  /** The ids of a list of dreams. */
  function IdsOf(ds: seq<Dream>): (r: set<string>)
    ensures forall i :: 0 <= i < |ds| ==> ds[i].id in r
    ensures forall id :: id in r ==> exists i :: 0 <= i < |ds| && ds[i].id == id
  {
    set i | 0 <= i < |ds| :: ds[i].id
  }

  /** The records whose id is not in `ids`, in their original order (`filter`). */
  function Excluding(ds: seq<Dream>, ids: set<string>): (r: seq<Dream>)
    ensures |r| <= |ds|
    ensures forall i :: 0 <= i < |r| ==> r[i].id !in ids && r[i] in ds
    ensures forall i :: 0 <= i < |ds| && ds[i].id !in ids ==> ds[i] in r
    ensures (forall i :: 0 <= i < |ds| ==> ds[i].id !in ids) ==> r == ds
  {
    if ds == [] then []
    else if ds[0].id in ids then Excluding(ds[1..], ids)
    else [ds[0]] + Excluding(ds[1..], ids)
  }

  /** Filtering distributes over concatenation, so the kept records keep their relative order. */
  lemma {:induction false} ExcludingAppend(a: seq<Dream>, b: seq<Dream>, ids: set<string>)
    ensures Excluding(a + b, ids) == Excluding(a, ids) + Excluding(b, ids)
  {
    if a != [] {
      assert (a + b)[0] == a[0] && (a + b)[1..] == a[1..] + b;
      ExcludingAppend(a[1..], b, ids);
    } else {
      assert a + b == b;
    }
  }

  /** `prev.map(d => d.id === from ? { ...d, id: to } : d)`. */
  function Renamed(ds: seq<Dream>, from: string, to: string): (r: seq<Dream>)
    ensures |r| == |ds|
    ensures forall i :: 0 <= i < |ds| && ds[i].id != from ==> r[i] == ds[i]
    ensures forall i :: 0 <= i < |ds| && ds[i].id == from ==> r[i].id == to && r[i] == ds[i].(id := to)
  {
    seq(|ds|, i requires 0 <= i < |ds| => if ds[i].id == from then ds[i].(id := to) else ds[i])
  }

  /** `prev.map(d => d.id === id ? { ...d, ...patch } : d)`. */
  function Patched(ds: seq<Dream>, id: string, p: DreamPatch): (r: seq<Dream>)
    ensures |r| == |ds|
    ensures forall i :: 0 <= i < |ds| ==> r[i].id == ds[i].id
    ensures forall i :: 0 <= i < |ds| && ds[i].id != id ==> r[i] == ds[i]
    ensures forall i :: 0 <= i < |ds| && ds[i].id == id ==> r[i] == ApplyPatch(ds[i], p)
    ensures (forall i :: 0 <= i < |ds| ==> ds[i].id != id) ==> r == ds
  {
    seq(|ds|, i requires 0 <= i < |ds| => if ds[i].id == id then ApplyPatch(ds[i], p) else ds[i])
  }

  /** The last record carrying `id`, the one the update callback remembers. */
  function LastWithId(ds: seq<Dream>, id: string): (r: Option<Dream>)
    ensures r.None? <==> forall i :: 0 <= i < |ds| ==> ds[i].id != id
    ensures r.Some? ==> r.value.id == id
    ensures r.Some? ==> exists i :: 0 <= i < |ds| && ds[i] == r.value && forall j :: i < j < |ds| ==> ds[j].id != id
  {
    if ds == [] then None
    else if ds[|ds| - 1].id == id then Some(ds[|ds| - 1])
    else
      var r := LastWithId(ds[..|ds| - 1], id);
      assert forall i :: 0 <= i < |ds| - 1 ==> ds[..|ds| - 1][i] == ds[i];
      r
  }

  // ---------------------------------------------------------------------------------------
  // The pending-edit ledger

  /** A JSON object from dream id to the full edited record. `order` lists its keys in the
      order they were first set, which is the order `Object.values` yields them. */
  datatype Ledger = Ledger(edits: map<string, Dream>, order: seq<string>) {

    /** Every key is listed once in `order`, and every record sits under its own id. */
    predicate Valid() {
      NoDup(order) && (forall k :: k in order ==> k in edits)
      && (forall k :: k in edits ==> k in order && edits[k].id == k)
    }

    /** `pendingEdits[id] = d`: an existing key keeps its place, a new one goes last. */
    function Put(id: string, d: Dream): (r: Ledger)
      ensures r.edits == edits[id := d]
      ensures id in order ==> r.order == order
      ensures id !in order ==> r.order == order + [id]
      ensures Valid() && d.id == id ==> r.Valid()
    {
      if id in order then Ledger(edits[id := d], order)
      else
        var r := Ledger(edits[id := d], order + [id]);
        assert Valid() && d.id == id ==> NoDup(r.order) by {
          if NoDup(order) { AppendNoDup(order, id); }
        }
        r
    }

    /** `delete pendingEdits[id]`. */
    function Remove(id: string): (r: Ledger)
      ensures r.edits == edits - {id}
      ensures id !in r.order
      ensures Valid() ==> r.Valid()
      ensures Valid() && id !in edits ==> r == this
    {
      var r := Ledger(edits - {id}, Without(order, id));
      assert NoDup(order) ==> NoDup(r.order) by {
        if NoDup(order) { WithoutNoDup(order, id); }
      }
      r
    }

    /** `Object.values(pendingEdits)`: the records in key order. */
    function Values(): (r: seq<Dream>)
      ensures forall i :: 0 <= i < |r| ==> r[i] in edits.Values
      ensures forall k :: k in order && k in edits ==> edits[k] in r
    {
      ValuesOf(order, edits)
    }
  }

  function ValuesOf(keys: seq<string>, edits: map<string, Dream>): (r: seq<Dream>)
    ensures forall i :: 0 <= i < |r| ==> r[i] in edits.Values
    ensures forall k :: k in keys && k in edits ==> edits[k] in r
  {
    if keys == [] then []
    else
      var rest := ValuesOf(keys[1..], edits);
      if keys[0] in edits then [edits[keys[0]]] + rest else rest
  }

  /** Recording an entry and then removing it leaves the ledger as a plain removal would. */
  lemma PutThenRemove(l: Ledger, id: string, d: Dream)
    ensures l.Put(id, d).Remove(id) == l.Remove(id)
  {
    assert l.Put(id, d).edits - {id} == l.edits - {id};
    if id !in l.order {
      WithoutAppend(l.order, [id], id);
      assert Without([id], id) == [];
    }
  }

  /** The empty ledger, `{}`. */
  const NO_EDITS: Ledger := Ledger(map[], [])

  // ---------------------------------------------------------------------------------------
  // The merge after a fetch

  /** A server record, or the ledger's record in its place when one is pending. */
  function Resolve(d: Dream, ledger: Ledger): Dream {
    if d.id in ledger.edits then ledger.edits[d.id] else d
  }

  /** Each kept server record resolved against the ledger. */
  function Overlay(ds: seq<Dream>, ledger: Ledger): (r: seq<Dream>)
    ensures |r| == |ds|
    ensures forall i :: 0 <= i < |ds| ==> r[i] == Resolve(ds[i], ledger)
  {
    seq(|ds|, i requires 0 <= i < |ds| => Resolve(ds[i], ledger))
  }

  /** Ledger records whose id the server does not list and that are not pending deletion. */
  function LocalOnly(server: seq<Dream>, ledger: Ledger, deletes: seq<string>): seq<Dream> {
    Excluding(ledger.Values(), IdsOf(server) + Elements(deletes))
  }

  /** Server records not pending deletion, in server order. */
  function KeptServer(server: seq<Dream>, deletes: seq<string>): seq<Dream> {
    Excluding(server, Elements(deletes))
  }

  /** The list rebuilt after a fetch: local-only ledger records first, then the server records
      not pending deletion, each replaced by its pending edit when there is one. */
  function Merge(server: seq<Dream>, ledger: Ledger, deletes: seq<string>): (r: seq<Dream>)
    ensures |r| == |LocalOnly(server, ledger, deletes)| + |KeptServer(server, deletes)|
    ensures forall i :: 0 <= i < |r| ==> r[i] in server || r[i] in ledger.edits.Values
  {
    var local := LocalOnly(server, ledger, deletes);
    var kept := KeptServer(server, deletes);
    var r := local + Overlay(kept, ledger);
    assert forall i :: 0 <= i < |r| ==> r[i] in server || r[i] in ledger.edits.Values by {
      forall i | 0 <= i < |r| ensures r[i] in server || r[i] in ledger.edits.Values {
        if i < |local| {
          assert r[i] == local[i];
          assert local[i] in ledger.Values();
        } else {
          var d := kept[i - |local|];
          assert r[i] == Resolve(d, ledger);
          assert d in server;
        }
      }
    }
    r
  }

  /** No record of the merged list carries an id that is pending deletion. */
  lemma MergeDropsDeletes(server: seq<Dream>, ledger: Ledger, deletes: seq<string>)
    requires ledger.Valid()
    ensures forall i :: 0 <= i < |Merge(server, ledger, deletes)| ==> Merge(server, ledger, deletes)[i].id !in deletes
  {
    var local := LocalOnly(server, ledger, deletes);
    var kept := KeptServer(server, deletes);
    var r := Merge(server, ledger, deletes);
    assert r == local + Overlay(kept, ledger);
    forall i | 0 <= i < |r| ensures r[i].id !in deletes {
      if i >= |local| {
        assert r[i] == Resolve(kept[i - |local|], ledger);
      }
    }
  }

  /** The merged list is the local-only records followed by the kept server records in server
      order, each replaced wholesale by the ledger's record when its id has one. */
  lemma MergeLayout(server: seq<Dream>, ledger: Ledger, deletes: seq<string>)
    ensures Merge(server, ledger, deletes)[..|LocalOnly(server, ledger, deletes)|] == LocalOnly(server, ledger, deletes)
    ensures forall i :: 0 <= i < |KeptServer(server, deletes)| ==>
      var d := KeptServer(server, deletes)[i];
      Merge(server, ledger, deletes)[|LocalOnly(server, ledger, deletes)| + i]
        == (if d.id in ledger.edits then ledger.edits[d.id] else d)
  {
    var local := LocalOnly(server, ledger, deletes);
    var r := Merge(server, ledger, deletes);
    assert r == local + Overlay(KeptServer(server, deletes), ledger);
  }

  /** A ledger record is local-only exactly when the server does not list its id and it is not
      pending deletion. */
  lemma LocalOnlyMembers(server: seq<Dream>, ledger: Ledger, deletes: seq<string>, k: string)
    requires ledger.Valid() && k in ledger.edits
    ensures ledger.edits[k] in LocalOnly(server, ledger, deletes)
      <==> (forall i :: 0 <= i < |server| ==> server[i].id != k) && k !in deletes
  {
    var d := ledger.edits[k];
    assert d.id == k;
    if ledger.edits[k] in LocalOnly(server, ledger, deletes) {
      assert d.id !in IdsOf(server);
    }
  }

  /** A pending edit not pending deletion always shows after a merge: in place of the server
      record when the server lists its id, among the local-only records otherwise. */
  lemma MergeShowsPendingEdit(server: seq<Dream>, ledger: Ledger, deletes: seq<string>, id: string)
    requires ledger.Valid() && id in ledger.edits && id !in deletes
    ensures ledger.edits[id] in Merge(server, ledger, deletes)
  {
    if id in IdsOf(server) {
      var j :| 0 <= j < |server| && server[j].id == id;
      MergeShowsListed(server, ledger, deletes, j);
    } else {
      LocalOnlyMembers(server, ledger, deletes, id);
      MergeHasLocal(server, ledger, deletes, ledger.edits[id]);
    }
  }

  /** A local-only record shows in the merged list. */
  lemma MergeHasLocal(server: seq<Dream>, ledger: Ledger, deletes: seq<string>, d: Dream)
    requires d in LocalOnly(server, ledger, deletes)
    ensures d in Merge(server, ledger, deletes)
  {
    var local := LocalOnly(server, ledger, deletes);
    var r := Merge(server, ledger, deletes);
    assert r == local + Overlay(KeptServer(server, deletes), ledger);
    var k :| 0 <= k < |local| && local[k] == d;
    assert r[k] == d;
  }

  /** The pending edit of a server record not pending deletion shows in the merged list. */
  lemma MergeShowsListed(server: seq<Dream>, ledger: Ledger, deletes: seq<string>, j: nat)
    requires j < |server| && server[j].id in ledger.edits && server[j].id !in deletes
    ensures ledger.edits[server[j].id] in Merge(server, ledger, deletes)
  {
    var kept := KeptServer(server, deletes);
    assert server[j].id !in Elements(deletes);
    assert server[j] in kept;
    var i :| 0 <= i < |kept| && kept[i] == server[j];
    MergeAtKept(server, ledger, deletes, i);
  }

  /** Position `i` of the kept server records sits after the local-only records in the merged
      list, resolved against the ledger. */
  lemma MergeAtKept(server: seq<Dream>, ledger: Ledger, deletes: seq<string>, i: nat)
    requires i < |KeptServer(server, deletes)|
    ensures var k := |LocalOnly(server, ledger, deletes)| + i;
      k < |Merge(server, ledger, deletes)|
      && Merge(server, ledger, deletes)[k] == Resolve(KeptServer(server, deletes)[i], ledger)
  {
    var local := LocalOnly(server, ledger, deletes);
    var ov := Overlay(KeptServer(server, deletes), ledger);
    assert Merge(server, ledger, deletes) == local + ov;
    ConcatAt(local, ov, i);
  }

  /** Every merged record carrying the id of a pending edit is the ledger's record: there is no
      field-level merge with the server's version. */
  lemma MergeEditWins(server: seq<Dream>, ledger: Ledger, deletes: seq<string>, id: string)
    requires ledger.Valid() && id in ledger.edits
    ensures forall i :: 0 <= i < |Merge(server, ledger, deletes)| ==>
      (Merge(server, ledger, deletes)[i].id == id ==> Merge(server, ledger, deletes)[i] == ledger.edits[id])
  {
    var local := LocalOnly(server, ledger, deletes);
    var kept := KeptServer(server, deletes);
    var r := Merge(server, ledger, deletes);
    assert r == local + Overlay(kept, ledger);
    forall i | 0 <= i < |r| && r[i].id == id ensures r[i] == ledger.edits[id] {
      if i < |local| {
        assert r[i] == local[i];
        assert r[i] in ledger.edits.Values;
      } else {
        assert r[i] == Resolve(kept[i - |local|], ledger);
      }
    }
  }

  /** A record that is neither on the server nor in the ledger, which is where a created dream
      whose create call failed is left, is absent from every merged list. */
  lemma FailedCreateIsLost(server: seq<Dream>, ledger: Ledger, deletes: seq<string>, id: string)
    requires ledger.Valid() && id !in ledger.edits
    requires forall i :: 0 <= i < |server| ==> server[i].id != id
    ensures forall i :: 0 <= i < |Merge(server, ledger, deletes)| ==> Merge(server, ledger, deletes)[i].id != id
  {
    var local := LocalOnly(server, ledger, deletes);
    var kept := KeptServer(server, deletes);
    var r := Merge(server, ledger, deletes);
    assert r == local + Overlay(kept, ledger);
    forall i | 0 <= i < |r| ensures r[i].id != id {
      if i < |local| {
        assert r[i] in ledger.edits.Values;
      } else {
        assert r[i] == Resolve(kept[i - |local|], ledger);
      }
    }
  }

  // ---------------------------------------------------------------------------------------
  // The store

  /** The journal state of one signed-in user (or the guest). The bearer token is an input
      the store reads; the remote calls are represented by their outcomes. */
  class JournalStore {
    var token: Option<string>
    var dreams: seq<Dream>
    var pendingEdits: Ledger
    var pendingDeletes: seq<string>
    var isLoaded: bool

    predicate Valid()
      reads this
    {
      pendingEdits.Valid()
    }

    /** `auth?.token ?? null` is truthy. */
    predicate Authorized()
      reads this
    {
      token.Some? && token.value != ""
    }

    /** The load step: the stored list when it parses, else an empty journal; the ledgers are
        the ones this store wrote earlier. */
    constructor(stored: Stored<seq<Dream>>, ledger: Ledger, deletes: seq<string>, token: Option<string>)
      requires ledger.Valid()
      ensures Valid()
      ensures dreams == (if stored.Parsed? then stored.value else [])
      ensures isLoaded
      ensures pendingEdits == ledger && pendingDeletes == deletes && this.token == token
    {
      this.token := token;
      dreams := if stored.Parsed? then stored.value else [];
      pendingEdits := ledger;
      pendingDeletes := deletes;
      isLoaded := true;
    }

    /** The load effect run again for another storage key, when another user signs in: the
        new slot's list when it parses. An empty or corrupt slot only marks the journal loaded,
        so the previous user's records stay on display, and the persist effect then writes them
        under the new user's key. */
    method SwitchUser(stored: Stored<seq<Dream>>, ledger: Ledger, deletes: seq<string>, token: Option<string>)
      requires ledger.Valid()
      modifies this
      ensures Valid()
      ensures stored.Parsed? ==> dreams == stored.value
      ensures !stored.Parsed? ==> dreams == old(dreams)
      ensures isLoaded
      ensures pendingEdits == ledger && pendingDeletes == deletes && this.token == token
    {
      this.token := token;
      if stored.Parsed? {
        dreams := stored.value;
      }
      pendingEdits := ledger;
      pendingDeletes := deletes;
      isLoaded := true;
    }

    /** The background fetch: without a token, or when the fetch fails, nothing changes;
        otherwise the list becomes the merge of the fetched records with the ledgers. */
    method SyncFromApi(fetched: Option<seq<ApiDream>>, now: int)
      requires Valid()
      modifies this
      ensures Valid()
      ensures pendingEdits == old(pendingEdits) && pendingDeletes == old(pendingDeletes)
      ensures isLoaded == old(isLoaded) && token == old(token)
      ensures dreams == (if Authorized() && fetched.Some?
        then Merge(AllFromApi(fetched.value, now), pendingEdits, pendingDeletes)
        else old(dreams))
      ensures Authorized() && fetched.Some? ==>
        forall i :: 0 <= i < |dreams| ==> dreams[i].id !in pendingDeletes
    {
      if !Authorized() {
        return;
      }
      if fetched.Some? {
        var server := AllFromApi(fetched.value, now);
        dreams := Merge(server, pendingEdits, pendingDeletes);
        MergeDropsDeletes(server, pendingEdits, pendingDeletes);
      }
    }

    /** The new record goes first at once; a create call that returns a non-empty id renames
        every record carrying the temporary id. The ledgers are never touched. */
    method AddDream(d: Dream, createdId: Option<string>)
      requires Valid()
      modifies this
      ensures Valid()
      ensures pendingEdits == old(pendingEdits) && pendingDeletes == old(pendingDeletes)
      ensures isLoaded == old(isLoaded) && token == old(token)
      ensures Authorized() && createdId.Some? && createdId.value != "" ==>
        dreams == Renamed([d] + old(dreams), d.id, createdId.value)
      ensures !(Authorized() && createdId.Some? && createdId.value != "") ==>
        dreams == [d] + old(dreams)
    {
      dreams := [d] + dreams;
      if !Authorized() {
        return;
      }
      if createdId.Some? && createdId.value != "" {
        dreams := Renamed(dreams, d.id, createdId.value);
      }
    }

    /** Every record carrying `id` is patched at once and the last of them is recorded in the
        ledger; a successful remote update clears the ledger entry, a failed one keeps it. */
    method UpdateDream(id: string, patch: DreamPatch, ok: bool)
      requires Valid()
      modifies this
      ensures Valid()
      ensures dreams == Patched(old(dreams), id, patch)
      ensures pendingDeletes == old(pendingDeletes) && isLoaded == old(isLoaded) && token == old(token)
      ensures Authorized() && ok ==> pendingEdits == old(pendingEdits).Remove(id)
      ensures !(Authorized() && ok) && LastWithId(old(dreams), id).Some? ==>
        pendingEdits == old(pendingEdits).Put(id, ApplyPatch(LastWithId(old(dreams), id).value, patch))
      ensures !(Authorized() && ok) && LastWithId(old(dreams), id).None? ==>
        pendingEdits == old(pendingEdits)
    {
      var last := LastWithId(dreams, id);
      var ledger := pendingEdits;
      if last.Some? {
        var updated := ApplyPatch(last.value, patch);
        assert updated.id == id;
        ledger := ledger.Put(id, updated);
        if Authorized() && ok {
          PutThenRemove(pendingEdits, id, updated);
        }
      }
      if Authorized() && ok {
        ledger := ledger.Remove(id);
      }
      dreams := Patched(dreams, id, patch);
      pendingEdits := ledger;
    }

    /** Every record carrying `id` leaves the list at once, the id is appended to the
        pending-delete list and its pending edit is dropped; a successful remote delete removes
        every occurrence of the id from the pending-delete list, a failed one keeps it. */
    method DeleteDream(id: string, ok: bool)
      requires Valid()
      modifies this
      ensures Valid()
      ensures dreams == Excluding(old(dreams), {id})
      ensures forall i :: 0 <= i < |dreams| ==> dreams[i].id != id
      ensures pendingEdits == old(pendingEdits).Remove(id)
      ensures isLoaded == old(isLoaded) && token == old(token)
      ensures Authorized() && ok ==> pendingDeletes == Without(old(pendingDeletes) + [id], id)
      ensures !(Authorized() && ok) ==> pendingDeletes == old(pendingDeletes) + [id]
    {
      dreams := Excluding(dreams, {id});
      pendingDeletes := pendingDeletes + [id];
      pendingEdits := pendingEdits.Remove(id);
      if !Authorized() {
        return;
      }
      if ok {
        pendingDeletes := Without(pendingDeletes, id);
      }
    }

    /** The list goes back to the seed collection. */
    method ResetDreams()
      requires Valid()
      modifies this
      ensures Valid()
      ensures dreams == INITIAL_DREAMS
      ensures pendingEdits == old(pendingEdits) && pendingDeletes == old(pendingDeletes)
      ensures isLoaded == old(isLoaded) && token == old(token)
    {
      dreams := INITIAL_DREAMS;
    }
  }

  /** Signing in as another user whose dream slot is empty keeps showing the journal the
      previous user had loaded. */
  method SwitchCarriesOver(previous: seq<Dream>, ledger: Ledger, token: Option<string>,
      nextToken: Option<string>) returns (shown: seq<Dream>)
    requires ledger.Valid()
    ensures shown == previous
  {
    var store := new JournalStore(Parsed(previous), ledger, [], token);
    store.SwitchUser(Absent, NO_EDITS, [], nextToken);
    shown := store.dreams;
  }

  /** An update whose remote call failed survives a later merge: the edited record shows, and
      every record with that id is the edited one. */
  lemma FailedUpdateSurvivesMerge(ledger: Ledger, deletes: seq<string>, edited: Dream, server: seq<Dream>)
    requires ledger.Valid() && edited.id !in deletes
    ensures edited in Merge(server, ledger.Put(edited.id, edited), deletes)
    ensures forall i :: 0 <= i < |Merge(server, ledger.Put(edited.id, edited), deletes)| ==>
      (Merge(server, ledger.Put(edited.id, edited), deletes)[i].id == edited.id ==>
       Merge(server, ledger.Put(edited.id, edited), deletes)[i] == edited)
  {
    MergeShowsPendingEdit(server, ledger.Put(edited.id, edited), deletes, edited.id);
    MergeEditWins(server, ledger.Put(edited.id, edited), deletes, edited.id);
  }

  /** A delete, whether or not its remote call succeeds, keeps the id out of every later merge
      as long as the id stays on the pending-delete list. */
  lemma DeleteHidesFromMerge(ledger: Ledger, deletes: seq<string>, id: string, server: seq<Dream>)
    requires ledger.Valid()
    ensures forall i :: 0 <= i < |Merge(server, ledger.Remove(id), deletes + [id])| ==>
      Merge(server, ledger.Remove(id), deletes + [id])[i].id != id
  {
    MergeDropsDeletes(server, ledger.Remove(id), deletes + [id]);
  }
}
