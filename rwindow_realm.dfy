/** The realm registry (src/RWindowRealm.js): the pool of windows, the table
 *  of window controllers, the focused id and the close counter, changed only
 *  by the realm reducer. `C` is the opaque content a window is created with,
 *  `A` the controller (api) a window registers. */
module RWindowRealm {
  import opened Wrappers
  import opened JsValues
  import opened JsArrays

  /** A window in the pool: the element `<RWindow key={id} options={{...options, id}}>`. */
  datatype PoolEntry<C> = PoolEntry(key: string, options: Props, content: C)

  /** A registered controller: `{ id, api }`. */
  datatype ApiEntry<A> = ApiEntry(id: string, api: A)

  /** The realm state; `focused == None` is the initial `null`. */
  datatype Realm<C, A> = Realm(
    windowPool: seq<PoolEntry<C>>,
    windowApis: seq<ApiEntry<A>>,
    focused: Option<string>,
    closeCount: nat)

  /** A tag the realm reducer does not know. */
  type UnknownTag = t: string | t !in {"add", "remove", "set_focused", "add_api", "remove_api"}
    witness ""

  /** The actions the realm reducer receives. For the three actions whose payload
   *  is a bare id, `None` is a `null` or `undefined` payload. */
  datatype RealmAction<C, A> =
    | Add(id: string, options: Value, content: C)    // "add"
    | Remove(target: Option<string>)                 // "remove"
    | SetFocused(target: Option<string>)             // "set_focused"
    | AddApi(id: string, api: A)                     // "add_api"
    | RemoveApi(target: Option<string>)              // "remove_api"
    | Unknown(tag: UnknownTag, payload: Value)

  /** What the realm reducer throws: the TypeError of destructuring a `null`
   *  payload, or its own "Unknown dispatch type" error. */
  datatype RealmError = PayloadNotDestructurable | UnknownDispatchType(tag: string)

  function PoolKey<C>(e: PoolEntry<C>): string { e.key }

  function ApiId<A>(e: ApiEntry<A>): string { e.id }

  /** The realm's initial state. */
  function Initial<C, A>(): (r: Realm<C, A>)
    ensures r.windowPool == [] && r.windowApis == [] && r.focused == None && r.closeCount == 0
  {
    Realm([], [], None, 0)
  }

  /** The payload of an action is `null`. */
  predicate NullPayload<C, A>(a: RealmAction<C, A>)
  {
    match a
    case Remove(t) => t.None?
    case SetFocused(t) => t.None?
    case RemoveApi(t) => t.None?
    case Unknown(_, v) => Nullish(v)
    case _ => false
  }

  /** The realm reducer. */
  function Reduce<C, A>(s: Realm<C, A>, a: RealmAction<C, A>): (r: Result<Realm<C, A>, RealmError>)
    ensures r.Err? <==> a.Unknown? || NullPayload(a)
    ensures r.Err? ==> r.error == if NullPayload(a) then PayloadNotDestructurable
                                  else UnknownDispatchType(a.tag)
    ensures r.Ok? ==> r.value.closeCount == s.closeCount
                      || (a.Remove? && r.value.closeCount == s.closeCount + 1)
  {
    if NullPayload(a) then Err(PayloadNotDestructurable)
    else
      match a
      case Add(id, options, content) =>
        var window := PoolEntry(id, Spread(options)["id" := Str(id)], content);
        Ok(s.(windowPool := s.windowPool + [window]))
      case Remove(target) =>
        if IndexOf(s.windowPool, PoolKey, target.value) == -1 then Ok(s)
        else Ok(s.(windowPool := Without(s.windowPool, PoolKey, target.value),
                   closeCount := s.closeCount + 1))
      case SetFocused(target) =>
        Ok(s.(focused := target))
      case AddApi(id, api) =>
        Ok(s.(windowApis := s.windowApis + [ApiEntry(id, api)]))
      case RemoveApi(target) =>
        if IndexOf(s.windowApis, ApiId, target.value) == -1 then Ok(s)
        else Ok(s.(windowApis := Without(s.windowApis, ApiId, target.value)))
      case Unknown(tag, _) =>
        Err(UnknownDispatchType(tag))
  }

  /** Dispatching a sequence of actions; the first throw ends the run. */
  function Run<C, A>(s: Realm<C, A>, actions: seq<RealmAction<C, A>>): (r: Result<Realm<C, A>, RealmError>)
    ensures actions == [] ==> r == Ok(s)
    ensures |actions| == 1 ==> r == Reduce(s, actions[0])
    ensures actions != [] && Reduce(s, actions[0]).Err? ==> r == Reduce(s, actions[0])
    decreases |actions|
  {
    if actions == [] then Ok(s)
    else match Reduce(s, actions[0])
      case Err(e) => Err(e)
      case Ok(s') => Run(s', actions[1..])
  }

  /** Dispatching `a` and then `b` is dispatching `a + b`: a throw in `a`
   *  ends the run before `b` is looked at. */
  lemma {:induction false} RunAppend<C, A>(s: Realm<C, A>, a: seq<RealmAction<C, A>>, b: seq<RealmAction<C, A>>)
    ensures Run(s, a + b) == match Run(s, a) case Err(e) => Err(e) case Ok(t) => Run(t, b)
    decreases |a|
  {
    if a == [] {
      assert a + b == b;
    } else {
      assert (a + b)[0] == a[0] && (a + b)[1..] == a[1..] + b;
      match Reduce(s, a[0])
      case Err(_) =>
      case Ok(s') => RunAppend(s', a[1..], b);
    }
  }

  /** The result of `api.add`: the id it returns and the state it dispatches to. */
  datatype Added<C, A> = Added(id: string, realm: Realm<C, A>)

  /** `api.add(_id, options, content)`: a truthy requested id is used as it is,
   *  otherwise the id is "KEY-" followed by the next id of the uuid supply;
   *  the returned id is the one dispatched with "add". */
  function ApiAdd<C, A>(s: Realm<C, A>, requestedId: Option<string>, options: Value, content: C,
                        uuid: string): (r: Added<C, A>)
    ensures requestedId.Some? && requestedId.value != "" ==> r.id == requestedId.value
    ensures requestedId.None? || requestedId.value == "" ==> r.id == "KEY-" + uuid
    ensures Reduce(s, Add(r.id, options, content)) == Ok(r.realm)
  {
    var id := if requestedId.Some? && requestedId.value != "" then requestedId.value else "KEY-" + uuid;
    Added(id, Reduce(s, Add(id, options, content)).value)
  }

  /** `api.getJsx(id)`: the first pool record with key `id`, or null. */
  function GetJsx<C, A>(s: Realm<C, A>, id: string): (r: Option<PoolEntry<C>>)
    ensures r.None? <==> forall j :: 0 <= j < |s.windowPool| ==> s.windowPool[j].key != id
    ensures r.Some? ==> exists i :: 0 <= i < |s.windowPool| && s.windowPool[i] == r.value
                          && r.value.key == id && forall j :: 0 <= j < i ==> s.windowPool[j].key != id
  {
    var i := IndexOf(s.windowPool, PoolKey, id);
    if i != -1 then Some(s.windowPool[i]) else None
  }

  /** `api.getApi(id)`: the first `{ id, api }` record with that id, or null. */
  function GetApi<C, A>(s: Realm<C, A>, id: string): (r: Option<ApiEntry<A>>)
    ensures r.None? <==> forall j :: 0 <= j < |s.windowApis| ==> s.windowApis[j].id != id
    ensures r.Some? ==> exists i :: 0 <= i < |s.windowApis| && s.windowApis[i] == r.value
                          && r.value.id == id && forall j :: 0 <= j < i ==> s.windowApis[j].id != id
  {
    var i := IndexOf(s.windowApis, ApiId, id);
    if i != -1 then Some(s.windowApis[i]) else None
  }

  // ---------------------------------------------------------------------
  // Properties of the reducer

  /** "add" appends exactly one record, whose key and `options.id` are the
   *  given id (overriding an `id` inside options); nothing else changes. */
  lemma AddAppendsOne<C, A>(s: Realm<C, A>, id: string, options: Value, content: C)
    ensures Reduce(s, Add(id, options, content)).Ok?
    ensures var s' := Reduce(s, Add(id, options, content)).value;
      var n := |s.windowPool|;
      && |s'.windowPool| == n + 1
      && s'.windowPool[..n] == s.windowPool
      && s'.windowPool[n].key == id
      && s'.windowPool[n].content == content
      && s'.windowPool[n].options.Keys == Spread(options).Keys + {"id"}
      && Get(s'.windowPool[n].options, "id") == Str(id)
      && (forall k :: k in Spread(options) && k != "id" ==> s'.windowPool[n].options[k] == Spread(options)[k])
      && s'.windowApis == s.windowApis && s'.focused == s.focused && s'.closeCount == s.closeCount
  {
  }

  /** "remove" of an id no pool record has returns the state unchanged. */
  lemma RemoveAbsentIsNoOp<C, A>(s: Realm<C, A>, id: string)
    requires forall j :: 0 <= j < |s.windowPool| ==> s.windowPool[j].key != id
    ensures Reduce(s, Remove(Some(id))) == Ok(s)
  {
  }

  /** "remove" of a present id drops every record with that key, keeps the
   *  others in their order, counts one close and leaves the controller table
   *  and the focus alone. */
  lemma RemovePresent<C, A>(s: Realm<C, A>, id: string, i: nat)
    requires i < |s.windowPool| && s.windowPool[i].key == id
    ensures Reduce(s, Remove(Some(id))).Ok?
    ensures var s' := Reduce(s, Remove(Some(id))).value;
      && s'.closeCount == s.closeCount + 1
      && s'.windowApis == s.windowApis && s'.focused == s.focused
      && |s'.windowPool| < |s.windowPool|
      && (forall j :: 0 <= j < |s'.windowPool| ==> s'.windowPool[j].key != id)
      && (forall j :: 0 <= j < |s.windowPool| && s.windowPool[j].key != id ==> s.windowPool[j] in s'.windowPool)
      && (forall a, x, b :: s.windowPool == a + [x] + b && x.key != id ==>
            s'.windowPool == Without(a, PoolKey, id) + [x] + Without(b, PoolKey, id))
  {
    var s' := Reduce(s, Remove(Some(id))).value;
    assert IndexOf(s.windowPool, PoolKey, id) != -1;
    var pool := s.windowPool;
    assert |Without(pool, PoolKey, id)| < |pool| by {
      assert pool == pool[..i] + [pool[i]] + pool[i + 1..];
      WithoutConcat(pool[..i] + [pool[i]], pool[i + 1..], PoolKey, id);
      WithoutConcat(pool[..i], [pool[i]], PoolKey, id);
      assert Without([pool[i]], PoolKey, id) == [] by { assert [pool[i]][1..] == []; }
    }
    forall a, x, b | pool == a + [x] + b && x.key != id
      ensures s'.windowPool == Without(a, PoolKey, id) + [x] + Without(b, PoolKey, id)
    {
      KeepsOrderAround(a, x, b, PoolKey, id);
    }
  }

  /** "set_focused" stores its payload whether or not a window has that id. */
  lemma SetFocusedIsUnconditional<C, A>(s: Realm<C, A>, id: string)
    ensures Reduce(s, SetFocused(Some(id))) == Ok(s.(focused := Some(id)))
  {
  }

  /** "add_api" appends `{ id, api }` even when the id is already registered. */
  lemma AddApiAppends<C, A>(s: Realm<C, A>, id: string, api: A)
    ensures Reduce(s, AddApi(id, api)).Ok?
    ensures var s' := Reduce(s, AddApi(id, api)).value;
      s'.windowApis == s.windowApis + [ApiEntry(id, api)]
      && s'.windowPool == s.windowPool && s'.focused == s.focused && s'.closeCount == s.closeCount
  {
  }

  /** "remove_api" leaves the state unchanged for an unregistered id and
   *  otherwise drops every record with that id, touching nothing else. */
  lemma RemoveApiFilters<C, A>(s: Realm<C, A>, id: string)
    ensures Reduce(s, RemoveApi(Some(id))).Ok?
    ensures var s' := Reduce(s, RemoveApi(Some(id))).value;
      && ((forall j :: 0 <= j < |s.windowApis| ==> s.windowApis[j].id != id) ==> s' == s)
      && (forall j :: 0 <= j < |s'.windowApis| ==> s'.windowApis[j].id != id)
      && (forall j :: 0 <= j < |s.windowApis| && s.windowApis[j].id != id ==> s.windowApis[j] in s'.windowApis)
      && s'.windowPool == s.windowPool && s'.focused == s.focused && s'.closeCount == s.closeCount
  {
  }

  /** No run of actions lowers the close counter, and each action adds at most one. */
  lemma {:induction false} CloseCountMonotone<C, A>(s: Realm<C, A>, actions: seq<RealmAction<C, A>>)
    ensures Run(s, actions).Ok? ==>
      s.closeCount <= Run(s, actions).value.closeCount <= s.closeCount + |actions|
    decreases |actions|
  {
    if actions != [] {
      match Reduce(s, actions[0])
      case Err(_) =>
      case Ok(s') => CloseCountMonotone(s', actions[1..]);
    }
  }

  /** With an id the uuid supply has not handed out before, the new window is
   *  the one `getJsx` finds under the returned id. */
  lemma FreshAddIsFound<C, A>(s: Realm<C, A>, options: Value, content: C, uuid: string)
    requires forall j :: 0 <= j < |s.windowPool| ==> s.windowPool[j].key != "KEY-" + uuid
    ensures var r := ApiAdd(s, None, options, content, uuid);
      GetJsx(r.realm, r.id) == Some(r.realm.windowPool[|s.windowPool|])
  {
    var r := ApiAdd(s, None, options, content, uuid);
    AddAppendsOne(s, r.id, options, content);
    var i := IndexOf(r.realm.windowPool, PoolKey, r.id);
    assert r.realm.windowPool[|s.windowPool|].key == r.id;
    assert i == |s.windowPool|;
  }

  /** Adding under an id that is already in the pool adds a duplicate that
   *  `getJsx` never returns: the earlier record shadows it. */
  lemma DuplicateAddIsShadowed<C, A>(s: Realm<C, A>, id: string, options: Value, content: C,
                                     uuid: string)
    requires id != ""
    requires GetJsx(s, id).Some?
    ensures var r := ApiAdd(s, Some(id), options, content, uuid);
      r.id == id && |r.realm.windowPool| == |s.windowPool| + 1 && GetJsx(r.realm, id) == GetJsx(s, id)
  {
    var r := ApiAdd(s, Some(id), options, content, uuid);
    AddAppendsOne(s, id, options, content);
    var i := IndexOf(s.windowPool, PoolKey, id);
    assert r.realm.windowPool[i] == s.windowPool[i];
    assert IndexOf(r.realm.windowPool, PoolKey, id) == i;
  }

  /** Two windows added with generated ids, then the second removed: the pool
   *  holds only the first and one close is counted. */
  lemma AddAddRemoveScenario<C, A>(a: C, b: C, u1: string, u2: string)
    requires u1 != u2
    ensures var s0 := Initial<C, A>();
      var r1 := ApiAdd(s0, None, Obj(map["title" := Str("A"), "size" := Str("lg")]), a, u1);
      var r2 := ApiAdd(r1.realm, None, Obj(map["title" := Str("B")]), b, u2);
      var s3 := Reduce(r2.realm, Remove(Some(r2.id)));
      && |r2.realm.windowPool| == 2 && r2.realm.closeCount == 0
      && s3.Ok? && s3.value.windowPool == [r1.realm.windowPool[0]] && s3.value.closeCount == 1
      && s3.value.windowPool[0].key == r1.id && s3.value.windowPool[0].content == a
  {
    var s0 := Initial<C, A>();
    var r1 := ApiAdd(s0, None, Obj(map["title" := Str("A"), "size" := Str("lg")]), a, u1);
    var r2 := ApiAdd(r1.realm, None, Obj(map["title" := Str("B")]), b, u2);
    assert r1.id != r2.id by {
      assert r1.id[4..] == u1 && r2.id[4..] == u2;
    }
    var pool := r2.realm.windowPool;
    assert pool == [pool[0]] + [pool[1]];
    assert pool[1].key == r2.id && pool[0].key == r1.id;
    assert IndexOf(pool, PoolKey, r2.id) == 1;
    assert Without(pool, PoolKey, r2.id) == [pool[0]] by {
      assert pool[1..] == [pool[1]];
      assert pool[1..][1..] == [];
    }
  }
}
