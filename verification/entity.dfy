/** `Entity<K>`: identity-based equality with special handling of transient entities. */
module Entities {
  import opened Outcomes

  /** A reference to an object of a class derived from `Entity<K>`: the object's address
      (what `ReferenceEquals` compares), its runtime type, and its `Id`. */
  datatype EntityRef<K> = EntityRef(address: nat, runtimeType: string, id: K)

  /** A consistent heap: one address holds one object. */
  predicate SameHeap<K(==)>(a: EntityRef<K>, b: EntityRef<K>) {
    a.address == b.address ==> a == b
  }

  predicate ReferenceEquals<K>(a: EntityRef<K>, b: EntityRef<K>) {
    a.address == b.address
  }

  /** `IsTransient()`: the id still has its default value (`Guid.Empty`, `0`, ...),
      which `defaultKey` stands for. */
  function IsTransient<K(==)>(entity: EntityRef<K>, defaultKey: K): (r: bool)
    ensures r <==> entity.id == defaultKey
  {
    entity.id == defaultKey
  }

  /** The protected overload `Equals(Entity<K>? other)`: two transient entities are
      equal only as the same reference; otherwise ids are compared. */
  function EqualsEntity<K(==)>(self: EntityRef<K>, other: Option<EntityRef<K>>, defaultKey: K): (r: bool)
    ensures r ==> other.Some?
    ensures other.Some? && !ReferenceEquals(self, other.value) ==>
              (r <==> !IsTransient(self, defaultKey) && self.id == other.value.id)
  {
    if other.None? then false
    else if IsTransient(self, defaultKey) && IsTransient(other.value, defaultKey) then
      ReferenceEquals(self, other.value)
    else
      self.id == other.value.id
  }

  /** The override `Equals(object? obj)`: never equal to null, always equal to the same
      reference, never equal to an object of another runtime type, and otherwise equal
      exactly when both carry the same non-default id. */
  function Equals<K(==)>(self: EntityRef<K>, obj: Option<EntityRef<K>>, defaultKey: K): (r: bool)
    ensures obj.None? ==> !r
    ensures obj.Some? && ReferenceEquals(self, obj.value) ==> r
    ensures obj.Some? && !ReferenceEquals(self, obj.value) ==>
              (r <==> self.runtimeType == obj.value.runtimeType
                      && !IsTransient(self, defaultKey) && self.id == obj.value.id)
  {
    if obj.None? then false
    else if ReferenceEquals(self, obj.value) then true
    else if obj.value.runtimeType != self.runtimeType then false
    else EqualsEntity(self, obj, defaultKey)
  }

  /** `GetHashCode()`: the id's hash once persisted; for a transient entity, the
      runtime's per-object hash, taken here as a function of the address. */
  function GetHashCode<K(==)>(entity: EntityRef<K>, defaultKey: K,
                              idHash: K -> int, referenceHash: nat -> int): (r: int)
    ensures !IsTransient(entity, defaultKey) ==> r == idHash(entity.id)
    ensures IsTransient(entity, defaultKey) ==> r == referenceHash(entity.address)
  {
    if !IsTransient(entity, defaultKey) then idHash(entity.id) else referenceHash(entity.address)
  }

  /** On a consistent heap `Equals` is an equivalence relation. */
  lemma EqualsIsEquivalence<K>(a: EntityRef<K>, b: EntityRef<K>, c: EntityRef<K>, defaultKey: K)
    requires SameHeap(a, b) && SameHeap(b, c) && SameHeap(a, c)
    ensures Equals(a, Some(a), defaultKey)
    ensures Equals(a, Some(b), defaultKey) <==> Equals(b, Some(a), defaultKey)
    ensures Equals(a, Some(b), defaultKey) && Equals(b, Some(c), defaultKey) ==> Equals(a, Some(c), defaultKey)
  {
  }

  /** A transient entity is `Equals` to nothing but itself: not to another transient
      entity, and not to a persisted one, whose id differs from the default. */
  lemma TransientEqualityIsByReference<K>(a: EntityRef<K>, b: EntityRef<K>, defaultKey: K)
    requires SameHeap(a, b)
    requires IsTransient(a, defaultKey)
    ensures Equals(a, Some(b), defaultKey) <==> ReferenceEquals(a, b)
    ensures Equals(b, Some(a), defaultKey) <==> ReferenceEquals(a, b)
  {
  }

  /** Equal entities hash equally, whichever hash functions the runtime uses. */
  lemma EqualEntitiesHashEqually<K>(a: EntityRef<K>, b: EntityRef<K>, defaultKey: K,
                                        idHash: K -> int, referenceHash: nat -> int)
    requires SameHeap(a, b)
    requires Equals(a, Some(b), defaultKey)
    ensures GetHashCode(a, defaultKey, idHash, referenceHash) == GetHashCode(b, defaultKey, idHash, referenceHash)
  {
  }

  /** `left == right` as written: `left.Equals(right)` with a statically typed
      `Entity<K>?` argument binds to the more specific protected overload, which skips
      the reference and runtime-type checks of `Equals(object?)`. */
  function OperatorEqualsAsWritten<K(==)>(left: Option<EntityRef<K>>, right: Option<EntityRef<K>>,
                                          defaultKey: K): (r: bool)
    ensures left.None? ==> (r <==> right.None?)
    ensures left.Some? && right.Some? && !IsTransient(left.value, defaultKey) ==>
              (r <==> left.value.id == right.value.id)
  {
    if left.None? then right.None? else EqualsEntity(left.value, right, defaultKey)
  }

  /** `left != right` as written: the negation of the operator as written, so it too
      compares persisted entities by id alone, whatever their runtime types. */
  function OperatorNotEqualsAsWritten<K(==)>(left: Option<EntityRef<K>>, right: Option<EntityRef<K>>,
                                             defaultKey: K): (r: bool)
    ensures left.None? ==> (r <==> right.Some?)
    ensures left.Some? && right.None? ==> r
    ensures left.Some? && right.Some? && !IsTransient(left.value, defaultKey) ==>
              (r <==> left.value.id != right.value.id)
    ensures (left.Some? && right.Some? && IsTransient(left.value, defaultKey)
             && IsTransient(right.value, defaultKey)) ==> (r <==> !ReferenceEquals(left.value, right.value))
  {
    !OperatorEqualsAsWritten(left, right, defaultKey)
  }

  /** Two persisted entities of different runtime types with the same id are `==`
      under the operator as written, yet not `Equals`. */
  lemma OperatorIgnoresRuntimeType()
    ensures var cart := EntityRef(1, "Cart", 7);
            var order := EntityRef(2, "Order", 7);
            && OperatorEqualsAsWritten(Some(cart), Some(order), 0)
            && !OperatorNotEqualsAsWritten(Some(cart), Some(order), 0)
            && !Equals(cart, Some(order), 0)
            && OperatorNotEquals(Some(cart), Some(order), 0)
  {
  }

  /** `left == right` as evidently intended: null equals only null, and otherwise the
      operator agrees with `Equals(object?)`, so different runtime types are never `==`. */
  function OperatorEquals<K(==)>(left: Option<EntityRef<K>>, right: Option<EntityRef<K>>,
                                 defaultKey: K): (r: bool)
    ensures left.None? ==> (r <==> right.None?)
    ensures left.Some? && right.None? ==> !r
    ensures (left.Some? && right.Some? && SameHeap(left.value, right.value)
             && left.value.runtimeType != right.value.runtimeType) ==> !r
    ensures (left.Some? && right.Some? && SameHeap(left.value, right.value)
             && left.value.runtimeType == right.value.runtimeType
             && !IsTransient(left.value, defaultKey)) ==> (r <==> left.value.id == right.value.id)
  {
    if left.None? then right.None? else Equals(left.value, right, defaultKey)
  }

  /** `left != right` over the corrected `==`: null differs from every entity, entities of
      different runtime types always differ, and persisted entities of one runtime type
      differ exactly when their ids do. */
  function OperatorNotEquals<K(==)>(left: Option<EntityRef<K>>, right: Option<EntityRef<K>>,
                                    defaultKey: K): (r: bool)
    ensures left.None? ==> (r <==> right.Some?)
    ensures left.Some? && right.None? ==> r
    ensures (left.Some? && right.Some? && SameHeap(left.value, right.value)
             && left.value.runtimeType != right.value.runtimeType) ==> r
    ensures (left.Some? && right.Some? && SameHeap(left.value, right.value)
             && left.value.runtimeType == right.value.runtimeType
             && !IsTransient(left.value, defaultKey)) ==> (r <==> left.value.id != right.value.id)
  {
    !OperatorEquals(left, right, defaultKey)
  }

  /** The corrected operators are symmetric on a consistent heap and agree with `Equals`. */
  lemma OperatorEqualsAgreesWithEquals<K>(a: EntityRef<K>, b: EntityRef<K>, defaultKey: K)
    requires SameHeap(a, b)
    ensures OperatorEquals(Some(a), Some(b), defaultKey) <==> Equals(a, Some(b), defaultKey)
    ensures OperatorEquals(Some(a), Some(b), defaultKey) <==> OperatorEquals(Some(b), Some(a), defaultKey)
    ensures OperatorEquals(Some(a), Some(a), defaultKey)
    ensures OperatorNotEquals(Some(a), Some(b), defaultKey) <==> !Equals(a, Some(b), defaultKey)
  {
  }
}
