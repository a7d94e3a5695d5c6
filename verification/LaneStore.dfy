// Parties side by side sharing a two-level store: entries under a job ID, one per party. What holds of each party, and of
// each party with each of its entries, still holds when one of them moves on.
module LaneStore {
  type Store<T> = map<nat, map<nat, T>>

  function Under<T>(store: Store<T>, j: nat): map<nat, T> {
    if j in store then store[j] else map[]
  }

  function WithStored<T>(store: Store<T>, j: nat, id: nat, t: T): Store<T> {
    store[j := Under(store, j)[id := t]]
  }

  predicate Stored<T>(store: Store<T>, j: nat, id: nat) {
    j in store && id in store[j]
  }

  lemma StoredEntries<T>(store: Store<T>, j: nat, id: nat, t: T, k: nat, other: nat)
    ensures var after := WithStored(store, j, id, t);
            && (Stored(after, k, other) <==> (k == j && other == id) || Stored(store, k, other))
            && (Stored(after, k, other) ==>
                  after[k][other] == if k == j && other == id then t else store[k][other])
  {
  }

  type Party<!L> = (L, nat) -> bool
  type Entry<!L, !T> = (L, nat, T) -> bool

  /** Every party is well at the last job ID, and every entry fits its party. */
  ghost predicate AllWell<L(!new), T(!new)>(lanes: map<nat, L>, store: Store<T>, last: nat, party: Party<L>,
                                            entry: Entry<L, T>) {
    && (forall id :: id in lanes ==> party(lanes[id], last))
    && (forall j: nat, id: nat :: Stored(store, j, id) ==>
          1 <= j <= last && id in lanes && entry(lanes[id], j, store[j][id]))
  }

  /** A party moving on under job `j` keeps its entries under every other job. */
  ghost predicate KeepsEntries<L(!new), T(!new)>(l: L, l': L, j: nat, entry: Entry<L, T>) {
    forall k: nat, t: T :: k != j && entry(l, k, t) ==> entry(l', k, t)
  }

  ghost predicate MovesOn<L(!new), T(!new)>(l: L, l': L, j: nat, t: T, party: Party<L>, entry: Entry<L, T>) {
    party(l', j) && entry(l', j, t) && KeepsEntries(l, l', j, entry)
  }

  lemma MoveOnWell<L(!new), T(!new)>(lanes: map<nat, L>, store: Store<T>, j: nat, id: nat, l': L, t: T, party: Party<L>,
                                     entry: Entry<L, T>)
    requires j >= 1 && AllWell(lanes, store, j, party, entry) && id in lanes
    requires MovesOn(lanes[id], l', j, t, party, entry)
    ensures AllWell(lanes[id := l'], WithStored(store, j, id, t), j, party, entry)
  {
    var lanes', store' := lanes[id := l'], WithStored(store, j, id, t);
    forall k: nat, other: nat | Stored(store', k, other)
      ensures 1 <= k <= j && other in lanes' && entry(lanes'[other], k, store'[k][other])
    {
      StoredEntries(store, j, id, t, k, other);
    }
  }

  /** A property of each party beside its ID. */
  ghost predicate Everyone<L(!new)>(lanes: map<nat, L>, holds: (L, nat) -> bool) {
    forall id :: id in lanes ==> holds(lanes[id], id)
  }
}
