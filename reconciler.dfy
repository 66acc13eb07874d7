/**
 * The sensor platform's listener that keeps one dynamic entity per open
 * position (keyed by coin), vault deposit (keyed by vault address) and open
 * order (keyed by order id). Each run creates entities for keys that are new,
 * asks the registry to remove the entities of keys that are gone, and leaves
 * the rest alone.
 */
module Reconciler {
  import opened Wrappers
  import opened Text
  import opened AccountModel

  /** A dynamic entity, by the key and display data it is created with. */
  datatype Entity =
    | PositionSensor(positionCoin: string)
    | VaultSensor(vaultAddress: string, vaultName: string)
    | OrderSensor(orderId: int, orderCoin: string)

  function PositionUniqueId(wallet: string, coin: string): (id: string)
    ensures |id| == |wallet| + 10 + |coin|
    ensures id[..|wallet|] == wallet && id[|wallet|..|wallet| + 10] == "_position_" && id[|wallet| + 10..] == coin
  {
    wallet + "_position_" + coin
  }

  function VaultUniqueId(wallet: string, address: string): (id: string)
    ensures |id| == |wallet| + 7 + |address|
    ensures id[..|wallet|] == wallet && id[|wallet|..|wallet| + 7] == "_vault_" && id[|wallet| + 7..] == address
  {
    wallet + "_vault_" + address
  }

  function OrderUniqueId(wallet: string, orderId: int): (id: string)
    ensures |id| == |wallet| + 7 + |IntToString(orderId)|
    ensures id[..|wallet|] == wallet && id[|wallet|..|wallet| + 7] == "_order_" && id[|wallet| + 7..] == IntToString(orderId)
  {
    wallet + "_order_" + IntToString(orderId)
  }

  function PositionUid(wallet: string): string -> string { coin => PositionUniqueId(wallet, coin) }
  function VaultUid(wallet: string): string -> string { address => VaultUniqueId(wallet, address) }
  function OrderUid(wallet: string): int -> string { orderId => OrderUniqueId(wallet, orderId) }

  /** The unique id an entity registers under when it is created. */
  function UniqueId(wallet: string, e: Entity): string
  {
    match e
    case PositionSensor(coin) => PositionUniqueId(wallet, coin)
    case VaultSensor(address, _) => VaultUniqueId(wallet, address)
    case OrderSensor(orderId, _) => OrderUniqueId(wallet, orderId)
  }

  /** Whether two entities are for the same tracked key of the same kind. */
  predicate SameKey(e1: Entity, e2: Entity)
  {
    match (e1, e2)
    case (PositionSensor(a), PositionSensor(b)) => a == b
    case (VaultSensor(a, _), VaultSensor(b, _)) => a == b
    case (OrderSensor(a, _), OrderSensor(b, _)) => a == b
    case _ => false
  }

  /** The id the listener looks up for a gone key is the id the key's entity registered under. */
  lemma RemovalIdsMatchCreation(wallet: string, coin: string, v: VaultDeposit, o: OpenOrder)
    ensures PositionUid(wallet)(coin) == UniqueId(wallet, PositionSensor(coin))
    ensures VaultUid(wallet)(VaultKey(v)) == UniqueId(wallet, MakeVaultSensor(v))
    ensures OrderUid(wallet)(OrderKey(o)) == UniqueId(wallet, MakeOrderSensor(o))
  {
  }

  /** The three kinds register under different infixes, so their ids differ right after the wallet. */
  lemma KindsHaveDistinctIds(wallet: string, e1: Entity, e2: Entity)
    requires e1.PositionSensor? != e2.PositionSensor? || e1.VaultSensor? != e2.VaultSensor?
    ensures UniqueId(wallet, e1) != UniqueId(wallet, e2)
  {
    var w := |wallet|;
    assert UniqueId(wallet, e1)[w + 1] != UniqueId(wallet, e2)[w + 1];
  }

  /**
   * Entities of one wallet share a unique id only when they are for the same
   * key of the same kind: removing the id of a gone key never touches the
   * entity of another key.
   */
  lemma UniqueIdInjective(wallet: string, e1: Entity, e2: Entity)
    requires UniqueId(wallet, e1) == UniqueId(wallet, e2)
    ensures SameKey(e1, e2)
  {
    var id := UniqueId(wallet, e1);
    var w := |wallet|;
    match (e1, e2) {
      case (PositionSensor(a), PositionSensor(b)) =>
        assert id[w + 10..] == a && id[w + 10..] == b;
      case (VaultSensor(a, _), VaultSensor(b, _)) =>
        assert id[w + 7..] == a && id[w + 7..] == b;
      case (OrderSensor(a, _), OrderSensor(b, _)) =>
        assert id[w + 7..] == IntToString(a) && id[w + 7..] == IntToString(b);
        IntToStringInjective(a, b);
      case _ =>
        KindsHaveDistinctIds(wallet, e1, e2);
        assert false;
    }
  }

  function PositionKey(p: Position): string { p.coin }
  function VaultKey(v: VaultDeposit): string { v.vaultAddress }
  function OrderKey(o: OpenOrder): int { o.orderId }

  function MakeVaultSensor(v: VaultDeposit): Entity { VaultSensor(v.vaultAddress, v.vaultName) }
  function MakeOrderSensor(o: OpenOrder): Entity { OrderSensor(o.orderId, o.coin) }

  /** `{key(x) for x in items}` */
  function KeySet<K, X>(items: seq<X>, key: X -> K): set<K>
  {
    if items == [] then {} else KeySet(items[..|items| - 1], key) + {key(items[|items| - 1])}
  }

  /** One entity per item whose key is not among `known`, in list order; a repeated new key yields one per occurrence. */
  function NewEntities<K, X>(items: seq<X>, known: set<K>, key: X -> K, make: X -> Entity): seq<Entity>
  {
    if items == [] then []
    else
      var last := items[|items| - 1];
      NewEntities(items[..|items| - 1], known, key, make) + (if key(last) !in known then [make(last)] else [])
  }

  /** The last item carrying key `k`: its entity is the one the map keeps for a repeated new key. */
  function LastWith<K(==), X>(items: seq<X>, key: X -> K, k: K): (x: X)
    requires k in KeySet(items, key)
    ensures key(x) == k
  {
    var last := items[|items| - 1];
    if key(last) == k then last else LastWith(items[..|items| - 1], key, k)
  }

  /** A run over items whose keys are all known creates nothing. */
  lemma {:induction false} NoNewEntitiesWhenKnown<K, X>(items: seq<X>, known: set<K>, key: X -> K, make: X -> Entity)
    requires KeySet(items, key) <= known
    ensures NewEntities(items, known, key, make) == []
  {
    if items != [] {
      NoNewEntitiesWhenKnown(items[..|items| - 1], known, key, make);
    }
  }

  /** Every new key gets an entity (that of its last item), and every entity is for an item with a new key. */
  lemma {:induction false} NewEntitiesCover<K, X>(items: seq<X>, known: set<K>, key: X -> K, make: X -> Entity)
    ensures forall k :: k in KeySet(items, key) - known ==> make(LastWith(items, key, k)) in NewEntities(items, known, key, make)
    ensures forall i :: 0 <= i < |NewEntities(items, known, key, make)| ==>
      exists j :: 0 <= j < |items| && key(items[j]) !in known && NewEntities(items, known, key, make)[i] == make(items[j])
  {
    if items != [] {
      var init := items[..|items| - 1];
      var last := items[|items| - 1];
      NewEntitiesCover(init, known, key, make);
      var prev := NewEntities(init, known, key, make);
      var out := NewEntities(items, known, key, make);
      assert out == prev + (if key(last) !in known then [make(last)] else []);
      forall k | k in KeySet(items, key) - known
        ensures make(LastWith(items, key, k)) in out
      {
        if key(last) != k {
          assert k in KeySet(init, key);
          assert make(LastWith(init, key, k)) in prev;
        }
      }
      forall i | 0 <= i < |out|
        ensures exists j :: 0 <= j < |items| && key(items[j]) !in known && out[i] == make(items[j])
      {
        if i < |prev| {
          assert 0 <= i < |NewEntities(init, known, key, make)|;
          var j :| 0 <= j < |init| && key(init[j]) !in known && NewEntities(init, known, key, make)[i] == make(init[j]);
          assert init[j] == items[j];
        } else {
          assert key(items[|items| - 1]) !in known && out[i] == make(items[|items| - 1]);
        }
      }
    } else {
      assert NewEntities(items, known, key, make) == [];
    }
  }

  /** A vault address listed twice and unknown before yields two entities. */
  lemma DuplicateNewKeyExample(v: VaultDeposit)
    ensures NewEntities([v, v], {}, VaultKey, MakeVaultSensor) == [MakeVaultSensor(v), MakeVaultSensor(v)]
  {
    assert [v, v][..1] == [v];
    assert [v][..0] == [];
    assert NewEntities([v], {}, VaultKey, MakeVaultSensor) == [MakeVaultSensor(v)];
  }

  /** One position entity per coin of `coins`, each created once, in no particular order. */
  method SensorsFor(coins: set<string>) returns (added: map<string, Option<Entity>>, created: seq<Entity>)
    ensures added.Keys == coins
    ensures forall k :: k in added ==> added[k] == Some(PositionSensor(k)) && PositionSensor(k) in created
    ensures |created| == |coins|
    ensures forall e :: e in created ==> e.PositionSensor? && e.positionCoin in coins
  {
    added := map[];
    created := [];
    while added.Keys != coins
      invariant added.Keys <= coins
      invariant forall k :: k in added ==> added[k] == Some(PositionSensor(k)) && PositionSensor(k) in created
      invariant |created| == |added.Keys|
      invariant forall e :: e in created ==> e.PositionSensor? && e.positionCoin in added
      decreases |coins - added.Keys|
    {
      var coin :| coin in coins - added.Keys;
      var entity := PositionSensor(coin);
      created := created + [entity];
      added := added[coin := Some(entity)];
    }
  }

  /** The position additions: the coins of `current` that are not tracked get an entity; tracked ones keep theirs. */
  method AddNewCoins(tracked: map<string, Option<Entity>>, current: set<string>)
    returns (updated: map<string, Option<Entity>>, created: seq<Entity>)
    ensures updated.Keys == tracked.Keys + current
    ensures forall k :: k in tracked ==> updated[k] == tracked[k]
    ensures forall k :: k in current - tracked.Keys ==> updated[k] == Some(PositionSensor(k)) && PositionSensor(k) in created
    ensures |created| == |current - tracked.Keys|
    ensures forall e :: e in created ==> e.PositionSensor? && e.positionCoin in current - tracked.Keys
  {
    var added;
    added, created := SensorsFor(current - tracked.Keys);
    updated := tracked + added;
  }

  /**
   * The vault and order additions: walks the list and creates an entity for
   * each item whose key was not tracked before the walk began.
   */
  method AddNewItems<K, X>(tracked: map<K, Option<Entity>>, items: seq<X>, key: X -> K, make: X -> Entity)
    returns (updated: map<K, Option<Entity>>, created: seq<Entity>)
    ensures created == NewEntities(items, tracked.Keys, key, make)
    ensures updated.Keys == tracked.Keys + KeySet(items, key)
    ensures forall k :: k in tracked ==> updated[k] == tracked[k]
    ensures forall k :: k in KeySet(items, key) - tracked.Keys ==> updated[k] == Some(make(LastWith(items, key, k)))
  {
    var known := tracked.Keys;
    updated := tracked;
    created := [];
    var i := 0;
    while i < |items|
      invariant 0 <= i <= |items|
      invariant created == NewEntities(items[..i], known, key, make)
      invariant updated.Keys == known + KeySet(items[..i], key)
      invariant forall k :: k in tracked ==> updated[k] == tracked[k]
      invariant forall k :: k in KeySet(items[..i], key) - known ==> updated[k] == Some(make(LastWith(items[..i], key, k)))
    {
      var x := items[i];
      assert items[..i + 1][..i] == items[..i];
      if key(x) !in known {
        var entity := make(x);
        created := created + [entity];
        updated := updated[key(x) := Some(entity)];
      }
      i := i + 1;
    }
    assert items[..i] == items;
  }

  /** The unique ids of the entities for `keys`. */
  function IdsOf<K>(keys: set<K>, uid: K -> string): set<string>
  {
    set k | k in keys :: uid(k)
  }

  /** Dropping one more key `k`: the map loses `k`, and its id is reported when the registry knows it. */
  lemma DropOne<K>(tracked: map<K, Option<Entity>>, done: set<K>, k: K, uid: K -> string, registry: set<string>)
    ensures (tracked - done) - {k} == tracked - (done + {k})
    ensures uid(k) in registry ==> IdsOf(done + {k}, uid) * registry == IdsOf(done, uid) * registry + {uid(k)}
    ensures uid(k) !in registry ==> IdsOf(done + {k}, uid) * registry == IdsOf(done, uid) * registry
  {
    assert IdsOf(done + {k}, uid) == IdsOf(done, uid) + {uid(k)};
  }

  /**
   * The removals: every gone key leaves the map, whether or not the registry
   * knows its entity; the registry is asked to remove exactly those it knows.
   */
  method RemoveGone<K(==)>(tracked: map<K, Option<Entity>>, gone: set<K>, uid: K -> string, registry: set<string>)
    returns (updated: map<K, Option<Entity>>, removed: set<string>)
    requires gone <= tracked.Keys
    ensures updated == tracked - gone
    ensures removed == IdsOf(gone, uid) * registry
  {
    var done: set<K> := {};
    updated := tracked;
    removed := {};
    while done != gone
      invariant done <= gone
      invariant updated == tracked - done
      invariant removed == IdsOf(done, uid) * registry
      decreases |gone - done|
    {
      var k :| k in gone - done;
      DropOne(tracked, done, k, uid, registry);
      if uid(k) in registry {
        removed := removed + {uid(k)};
      }
      updated := updated - {k};
      done := done + {k};
    }
  }

  /**
   * The position map after a run: keyed by exactly the current coins, kept
   * coins keep their entry, each new coin has a fresh entity that was
   * created once, and nothing else was created.
   */
  ghost predicate CoinsReconciled(before: map<string, Option<Entity>>, after: map<string, Option<Entity>>,
                                  current: set<string>, created: seq<Entity>)
  {
    && after.Keys == current
    && (forall k :: k in before && k in after ==> after[k] == before[k])
    && (forall k :: k in current - before.Keys ==> after[k] == Some(PositionSensor(k)) && PositionSensor(k) in created)
    && |created| == |current - before.Keys|
    && (forall e :: e in created ==> e.PositionSensor? && e.positionCoin in current - before.Keys)
  }

  /**
   * The vault or order map after a run: keyed by exactly the current keys,
   * kept keys keep their entry, a new key holds the entity of its last item,
   * and one entity was created per item whose key was new.
   */
  ghost predicate ItemsReconciled<K, X>(before: map<K, Option<Entity>>, after: map<K, Option<Entity>>,
                                        items: seq<X>, key: X -> K, make: X -> Entity, created: seq<Entity>)
  {
    && after.Keys == KeySet(items, key)
    && (forall k :: k in before && k in after ==> after[k] == before[k])
    && (forall k :: k in KeySet(items, key) - before.Keys ==> after[k] == Some(make(LastWith(items, key, k))))
    && created == NewEntities(items, before.Keys, key, make)
  }

  /** Positions: add entities for new coins, then drop the coins that are gone. */
  method ReconcileCoins(tracked: map<string, Option<Entity>>, current: set<string>, uid: string -> string, registry: set<string>)
    returns (updated: map<string, Option<Entity>>, created: seq<Entity>, removed: set<string>)
    ensures CoinsReconciled(tracked, updated, current, created)
    ensures removed == Dropped(tracked, updated, uid, registry)
    ensures current <= tracked.Keys ==> created == []
  {
    var added;
    added, created := AddNewCoins(tracked, current);
    updated, removed := RemoveGone(added, tracked.Keys - current, uid, registry);
    assert updated.Keys == current;
    assert forall k :: k in updated ==> updated[k] == added[k];
  }

  /** Vaults and orders: add entities for items with new keys, then drop the keys that are gone. */
  method ReconcileItems<K(==), X>(tracked: map<K, Option<Entity>>, items: seq<X>, key: X -> K, make: X -> Entity,
                                  uid: K -> string, registry: set<string>)
    returns (updated: map<K, Option<Entity>>, created: seq<Entity>, removed: set<string>)
    ensures ItemsReconciled(tracked, updated, items, key, make, created)
    ensures removed == Dropped(tracked, updated, uid, registry)
    ensures KeySet(items, key) <= tracked.Keys ==> created == []
  {
    var added;
    added, created := AddNewItems(tracked, items, key, make);
    updated, removed := RemoveGone(added, tracked.Keys - KeySet(items, key), uid, registry);
    if KeySet(items, key) <= tracked.Keys {
      NoNewEntitiesWhenKnown(items, tracked.Keys, key, make);
    }
  }

  /** `{key(x): None for x in items}`: every key of the snapshot, with no entity handle yet. */
  function InitialTracking<K, X>(items: seq<X>, key: X -> K): (m: map<K, Option<Entity>>)
    ensures m.Keys == KeySet(items, key)
    ensures forall k :: k in m ==> m[k] == None
  {
    map k | k in KeySet(items, key) :: None
  }

  /** The registered unique ids of the keys a run dropped from a tracking map. */
  ghost function Dropped<K>(before: map<K, Option<Entity>>, after: map<K, Option<Entity>>,
                            uid: K -> string, registry: set<string>): set<string>
  {
    IdsOf(before.Keys - after.Keys, uid) * registry
  }

  /**
   * One listener run with data `d`, from maps `p0`, `v0`, `o0` to `p1`, `v1`,
   * `o1`: each map is reconciled with its current keys, the created entities
   * are the new positions, then the new vaults, then the new orders, and the
   * removed unique ids are those of the dropped keys found in the registry.
   */
  ghost predicate RunReconciled(p0: map<string, Option<Entity>>, v0: map<string, Option<Entity>>, o0: map<int, Option<Entity>>,
                                p1: map<string, Option<Entity>>, v1: map<string, Option<Entity>>, o1: map<int, Option<Entity>>,
                                d: AccountData, wallet: string, registry: set<string>,
                                created: seq<Entity>, removed: set<string>, createdPositions: seq<Entity>)
  {
    var newVaults := NewEntities(d.vaults, v0.Keys, VaultKey, MakeVaultSensor);
    var newOrders := NewEntities(d.openOrders, o0.Keys, OrderKey, MakeOrderSensor);
    && CoinsReconciled(p0, p1, KeySet(d.positions, PositionKey), createdPositions)
    && ItemsReconciled(v0, v1, d.vaults, VaultKey, MakeVaultSensor, newVaults)
    && ItemsReconciled(o0, o1, d.openOrders, OrderKey, MakeOrderSensor, newOrders)
    && created == createdPositions + newVaults + newOrders
    && removed == Dropped(p0, p1, PositionUid(wallet), registry) + Dropped(v0, v1, VaultUid(wallet), registry) +
                  Dropped(o0, o1, OrderUid(wallet), registry)
  }

  /** The three reconciliations of one listener run, on the maps as values. */
  method ReconcileAll(p0: map<string, Option<Entity>>, v0: map<string, Option<Entity>>, o0: map<int, Option<Entity>>,
                      d: AccountData, wallet: string, registry: set<string>)
    returns (p1: map<string, Option<Entity>>, v1: map<string, Option<Entity>>, o1: map<int, Option<Entity>>,
             created: seq<Entity>, removed: set<string>, ghost createdPositions: seq<Entity>)
    ensures RunReconciled(p0, v0, o0, p1, v1, o1, d, wallet, registry, created, removed, createdPositions)
    ensures (KeySet(d.positions, PositionKey) <= p0.Keys && KeySet(d.vaults, VaultKey) <= v0.Keys &&
             KeySet(d.openOrders, OrderKey) <= o0.Keys) ==> created == []
  {
    var newPositions, newVaults, newOrders, removedPositions, removedVaults, removedOrders;
    p1, newPositions, removedPositions := ReconcileCoins(p0, KeySet(d.positions, PositionKey), PositionUid(wallet), registry);
    v1, newVaults, removedVaults := ReconcileItems(v0, d.vaults, VaultKey, MakeVaultSensor, VaultUid(wallet), registry);
    o1, newOrders, removedOrders := ReconcileItems(o0, d.openOrders, OrderKey, MakeOrderSensor, OrderUid(wallet), registry);
    created := newPositions + newVaults + newOrders;
    createdPositions := newPositions;
    removed := removedPositions + removedVaults + removedOrders;
  }

  /** The three tracking maps the platform keeps between listener runs. */
  class EntityTracking {
    var positions: map<string, Option<Entity>>
    var vaults: map<string, Option<Entity>>
    var orders: map<int, Option<Entity>>

    /** Tracks every key of the first snapshot, or nothing when there is no data yet. */
    constructor (data: Option<AccountData>)
      ensures data.None? ==> positions == map[] && vaults == map[] && orders == map[]
      ensures data.Some? ==>
        positions == InitialTracking(data.value.positions, PositionKey) &&
        vaults == InitialTracking(data.value.vaults, VaultKey) &&
        orders == InitialTracking(data.value.openOrders, OrderKey)
    {
      match data {
        case None =>
          positions, vaults, orders := map[], map[], map[];
        case Some(d) =>
          positions := InitialTracking(d.positions, PositionKey);
          vaults := InitialTracking(d.vaults, VaultKey);
          orders := InitialTracking(d.openOrders, OrderKey);
      }
    }

    /**
     * One listener run. Without data nothing changes. Otherwise each map ends
     * up keyed by exactly the current keys: kept keys keep their entry, new
     * keys get an entity of their own, gone keys are dropped and their
     * registered unique ids are reported as removed.
     */
    method Update(data: Option<AccountData>, wallet: string, registry: set<string>)
      returns (created: seq<Entity>, removed: set<string>, ghost createdPositions: seq<Entity>)
      modifies this
      ensures data.None? ==>
        positions == old(positions) && vaults == old(vaults) && orders == old(orders) &&
        created == [] && removed == {}
      ensures data.Some? ==>
        RunReconciled(old(positions), old(vaults), old(orders), positions, vaults, orders,
                      data.value, wallet, registry, created, removed, createdPositions)
      ensures
        (data.Some? &&
         KeySet(data.value.positions, PositionKey) <= old(positions.Keys) &&
         KeySet(data.value.vaults, VaultKey) <= old(vaults.Keys) &&
         KeySet(data.value.openOrders, OrderKey) <= old(orders.Keys)) ==> created == []
    {
      if data.None? {
        return [], {}, [];
      }
      positions, vaults, orders, created, removed, createdPositions :=
        ReconcileAll(positions, vaults, orders, data.value, wallet, registry);
    }
  }
}
