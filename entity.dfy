/**
 * Shared.Kernel's Entity<Guid> base class: identity-based equality, the
 * creation/update time stamps and the list of pending domain events.
 */
module Entities {
  import opened Wrappers
  import Guids

  /**
   * A reference to an entity object: its runtime type, its Id, and `address`,
   * which stands for object identity (ReferenceEquals).
   */
  datatype EntityRef = EntityRef(typeName: string, id: Guids.Guid, address: nat)

  /** One object has one type and one Id: references with the same address agree. */
  predicate Coherent(a: EntityRef, b: EntityRef)
  {
    a.address == b.address ==> a == b
  }

  /** Entity.Equals(object? obj); `None` is null or an object that is not an entity. */
  predicate EntityEquals(self: EntityRef, obj: Option<EntityRef>)
  {
    if obj.None? then false
    else if self.address == obj.value.address then true
    else if self.typeName != obj.value.typeName then false
    else if self.id == Guids.Empty || obj.value.id == Guids.Empty then false
    else self.id == obj.value.id
  }

  /** `left == right`, which calls the static object.Equals: two nulls are equal, one null is not. */
  predicate EqualsOperator(left: Option<EntityRef>, right: Option<EntityRef>)
  {
    if left.None? && right.None? then true
    else if left.None? || right.None? then false
    else left.value.address == right.value.address || EntityEquals(left.value, right)
  }

  /** `left != right`. */
  predicate NotEqualsOperator(left: Option<EntityRef>, right: Option<EntityRef>)
  {
    !EqualsOperator(left, right)
  }

  /** Two distinct objects are equal exactly when they have the same type and the same non-empty Id. */
  lemma EqualsMeaning(self: EntityRef, other: EntityRef)
    ensures EntityEquals(self, Some(other)) <==>
      self.address == other.address || (self.typeName == other.typeName && self.id != Guids.Empty && self.id == other.id)
  {
  }

  lemma EqualsReflexive(a: EntityRef)
    ensures EntityEquals(a, Some(a)) && EqualsOperator(Some(a), Some(a))
  {
  }

  lemma EqualsSymmetric(a: EntityRef, b: EntityRef)
    requires Coherent(a, b)
    ensures EntityEquals(a, Some(b)) == EntityEquals(b, Some(a))
  {
  }

  lemma EqualsTransitive(a: EntityRef, b: EntityRef, c: EntityRef)
    requires Coherent(a, b) && Coherent(b, c) && Coherent(a, c)
    requires EntityEquals(a, Some(b)) && EntityEquals(b, Some(c))
    ensures EntityEquals(a, Some(c))
  {
  }

  /** The operator agrees with Equals on non-null operands and is never true against null. */
  lemma OperatorAgreesWithEquals(left: Option<EntityRef>, right: Option<EntityRef>)
    ensures left.Some? ==> (EqualsOperator(left, right) <==> EntityEquals(left.value, right))
    ensures left.Some? != right.Some? ==> !EqualsOperator(left, right)
  {
  }

  /** List<T>.Remove: drop the first element equal to x, if any. */
  function RemoveFirst<E(==)>(s: seq<E>, x: E): (r: seq<E>)
  {
    if s == [] then [] else if s[0] == x then s[1..] else [s[0]] + RemoveFirst(s[1..], x)
  }

  /** Removing takes out exactly one occurrence when there is one, and otherwise nothing. */
  lemma {:induction false} RemoveFirstCount<E>(s: seq<E>, x: E)
    ensures x in s ==> multiset(RemoveFirst(s, x)) == multiset(s) - multiset{x}
    ensures x !in s ==> RemoveFirst(s, x) == s
  {
    if s != [] {
      assert s == [s[0]] + s[1..];
      if s[0] != x {
        RemoveFirstCount(s[1..], x);
      }
    }
  }

  /** The position of the first occurrence of x. */
  function IndexOf<E(==)>(s: seq<E>, x: E): (k: nat)
    requires x in s
    ensures k < |s| && s[k] == x && x !in s[..k]
  {
    if s[0] == x then 0 else 1 + IndexOf(s[1..], x)
  }

  /** Removing keeps the other events in their order: s with its first x cut out. */
  lemma {:induction false} RemoveFirstCut<E>(s: seq<E>, x: E)
    requires x in s
    ensures var k := IndexOf(s, x); RemoveFirst(s, x) == s[..k] + s[k + 1..]
  {
    if s[0] != x {
      RemoveFirstCut(s[1..], x);
      var k := IndexOf(s[1..], x);
      assert s[..k + 1] == [s[0]] + s[1..][..k];
      assert s[k + 2..] == s[1..][k + 1..];
    }
  }

  /** The time stamps and domain-event list every entity carries. */
  class Entity<E(==)> {
    var id: Guids.Guid
    var createdAt: int
    var updatedAt: Option<int>
    var domainEvents: seq<E>

    /** The parameterless `Entity()` at time `now`; `id` is the Guid.NewGuid() it draws. */
    constructor (id: Guids.Guid, now: int)
      ensures this.id == id && createdAt == now && updatedAt == None && domainEvents == []
    {
      this.id := id;
      createdAt := now;
      updatedAt := None;
      domainEvents := [];
    }

    /**
     * `Entity(id)`: its `: base()` runs object's constructor, not `Entity()`, so
     * CreatedAt keeps default(DateTime), zero ticks.
     */
    constructor WithId(id: Guids.Guid)
      ensures this.id == id && createdAt == 0 && updatedAt == None && domainEvents == []
    {
      this.id := id;
      createdAt := 0;
      updatedAt := None;
      domainEvents := [];
    }

    method SetUpdatedAt(now: int)
      modifies this
      ensures updatedAt == Some(now)
      ensures id == old(id) && createdAt == old(createdAt) && domainEvents == old(domainEvents)
    {
      updatedAt := Some(now);
    }

    method AddDomainEvent(e: E)
      modifies this
      ensures domainEvents == old(domainEvents) + [e]
      ensures id == old(id) && createdAt == old(createdAt) && updatedAt == old(updatedAt)
    {
      domainEvents := domainEvents + [e];
    }

    method RemoveDomainEvent(e: E)
      modifies this
      ensures domainEvents == RemoveFirst(old(domainEvents), e)
      ensures id == old(id) && createdAt == old(createdAt) && updatedAt == old(updatedAt)
    {
      domainEvents := RemoveFirst(domainEvents, e);
    }

    method ClearDomainEvents()
      modifies this
      ensures domainEvents == []
      ensures id == old(id) && createdAt == old(createdAt) && updatedAt == old(updatedAt)
    {
      domainEvents := [];
    }

    /** GetDomainEvents: a read-only view of the pending events, in the order they were added. */
    method GetDomainEvents() returns (events: seq<E>)
      ensures events == domainEvents
    {
      events := domainEvents;
    }
  }
}
