/** Exactly when upserting contacts changes what is served of them. */
module ContactUpserts {
  import opened Domain
  import opened Ranking
  import opened Projection
  import opened Upserts

  /** The contacts of one owner after an upsert of `added` with weight `rank`. */
  ghost predicate Upserted(before: Contacts, after: Contacts, added: set<string>, rank: int, owner: int) {
    && (forall t :: (owner, t) in after <==> (owner, t) in before || t in added)
    && (forall t :: (owner, t) in before ==> after[(owner, t)] == NewWeight(before, added, rank, owner, t))
  }

  function NewWeight(table: Contacts, added: set<string>, rank: int, owner: int, t: string): int
    requires (owner, t) in table
  {
    if t in added then Heavier(table[(owner, t)], rank) else table[(owner, t)]
  }

  /** With the new weights `t` comes before `u`. */
  predicate Beats(table: Contacts, added: set<string>, rank: int, owner: int, t: string, u: string)
    requires (owner, t) in table && (owner, u) in table
  {
    var a, b := NewWeight(table, added, rank, owner, t), NewWeight(table, added, rank, owner, u);
    a > b || (a == b && TextLess(t, u))
  }

  /** The upsert makes `t` heavier, and so it gets ahead of `u`. */
  predicate Overtakes(table: Contacts, added: set<string>, rank: int, owner: int, t: string, u: string) {
    && t in added && (owner, t) in table && table[(owner, t)] < rank
    && (owner, u) in table && t != u && Beats(table, added, rank, owner, t, u)
  }

  /** A contact is new, or a heavier one overtakes one of the first two. */
  predicate ContactsShow(table: Contacts, added: set<string>, rank: int, owner: int) {
    var first, second := NthContact(table, owner, 1), NthContact(table, owner, 2);
    || (exists t :: t in added && (owner, t) !in table)
    || (first.Some? && exists t :: t in added && Overtakes(table, added, rank, owner, t, first.value))
    || (first.Some? && second.Some?
        && exists t :: t in added && t != first.value && Overtakes(table, added, rank, owner, t, second.value))
  }

  ghost predicate ServedAlike(before: Contacts, after: Contacts, owner: int) {
    && TextsOf(after, owner) == TextsOf(before, owner)
    && NthContact(after, owner, 1) == NthContact(before, owner, 1)
    && NthContact(after, owner, 2) == NthContact(before, owner, 2)
  }

  /** Any owner with contacts has a first one. */
  lemma SomeFirst(table: Contacts, owner: int, t: string)
    requires (owner, t) in table
    ensures NthContact(table, owner, 1).Some? && Best(table, owner, NthContact(table, owner, 1).value)
  {
    hide ContactBefore, Best, TextLess;
    var rows := ContactsOf(table, owner);
    ContactsOrdered(table, owner);
    assert Contact(owner, t, table[(owner, t)]) in rows;
    assert |rows| >= 1 by { assert rows != {}; }
    NthExists(rows, ContactBefore, 1);
    var x :| Nth(rows, ContactBefore, 1) == {x};
    assert x in Nth(rows, ContactBefore, 1);
    assert TheRow(Nth(rows, ContactBefore, 1)) == Some(x);
    FirstContactIsBest(table, owner, x.text);
  }

  lemma NoFirst(table: Contacts, owner: int)
    requires forall t :: (owner, t) !in table
    ensures NthContact(table, owner, 1) == None && NthContact(table, owner, 2) == None
  {
    assert forall x :: x in ContactsOf(table, owner) ==> (owner, x.text) in table;
    assert ContactsOf(table, owner) == {};
  }

  /** A best contact stays the best exactly when none overtakes it. */
  lemma BestStays(before: Contacts, after: Contacts, added: set<string>, rank: int, owner: int, u: string)
    requires Upserted(before, after, added, rank, owner) && Best(before, owner, u)
    requires forall t :: t in added ==> (owner, t) in before
    ensures Best(after, owner, u) <==> !exists t :: t in added && Overtakes(before, added, rank, owner, t, u)
  {
    forall t | t in added && Overtakes(before, added, rank, owner, t, u) ensures !Best(after, owner, u) {
      TextConnected(t, u);
      assert (owner, t) in after;
    }
    if forall t :: t in added ==> !Overtakes(before, added, rank, owner, t, u) {
      forall t | (owner, t) in after && t != u
        ensures after[(owner, t)] < after[(owner, u)] || (after[(owner, t)] == after[(owner, u)] && TextLess(u, t))
      {
        TextConnected(t, u);
        assert (owner, t) in before;
        if t in added { assert !Overtakes(before, added, rank, owner, t, u); }
      }
    }
  }

  lemma FirstStays(before: Contacts, after: Contacts, added: set<string>, rank: int, owner: int, first: string)
    requires Upserted(before, after, added, rank, owner) && NthContact(before, owner, 1) == Some(first)
    requires forall t :: t in added ==> (owner, t) in before
    ensures NthContact(after, owner, 1) == Some(first)
            <==> !exists t :: t in added && Overtakes(before, added, rank, owner, t, first)
  {
    hide Upserted, Best, NthContact, Overtakes;
    FirstContactIsBest(before, owner, first);
    FirstContactIsBest(after, owner, first);
    BestStays(before, after, added, rank, owner, first);
  }

  lemma WithoutFirst(before: Contacts, after: Contacts, added: set<string>, rank: int, owner: int, first: string)
    requires Upserted(before, after, added, rank, owner)
    ensures Upserted(before - {(owner, first)}, after - {(owner, first)}, added - {first}, rank, owner)
  {
  }

  /** Whether one contact overtakes another does not depend on a third. */
  lemma OvertakesWithoutFirst(table: Contacts, added: set<string>, rank: int, owner: int, first: string, t: string, u: string)
    requires t != first && u != first
    ensures Overtakes(table - {(owner, first)}, added - {first}, rank, owner, t, u)
            <==> Overtakes(table, added, rank, owner, t, u)
  {
  }

  lemma SecondStays(
    before: Contacts, after: Contacts, added: set<string>, rank: int, owner: int, first: string, second: string)
    requires Upserted(before, after, added, rank, owner)
    requires NthContact(before, owner, 1) == Some(first) == NthContact(after, owner, 1)
    requires NthContact(before, owner, 2) == Some(second)
    requires forall t :: t in added ==> (owner, t) in before
    ensures NthContact(after, owner, 2) == Some(second)
            <==> !exists t :: t in added && t != first && Overtakes(before, added, rank, owner, t, second)
  {
    hide Upserted, Best, NthContact, Overtakes;
    SecondContactIsNextBest(before, owner, first, second);
    SecondContactIsNextBest(after, owner, first, second);
    WithoutFirst(before, after, added, rank, owner, first);
    BestStays(before - {(owner, first)}, after - {(owner, first)}, added - {first}, rank, owner, second);
    forall t | t != first { OvertakesWithoutFirst(before, added, rank, owner, first, t, second); }
    if t :| t in added && t != first && Overtakes(before, added, rank, owner, t, second) {
      assert t in added - {first};
    }
  }

  /** With one contact, there is no second before or after. */
  lemma NoSecond(before: Contacts, after: Contacts, owner: int, first: string)
    requires NthContact(before, owner, 1) == Some(first) == NthContact(after, owner, 1)
    requires NthContact(before, owner, 2) == None
    requires forall t :: (owner, t) in before <==> (owner, t) in after
    ensures NthContact(after, owner, 2) == None
  {
    hide Best, NthContact;
    var second := NthContact(after, owner, 2);
    if second.Some? {
      SecondContactIsNextBest(after, owner, first, second.value);
      BestIsThere(after - {(owner, first)}, owner, second.value);
      var rest := before - {(owner, first)};
      assert (owner, second.value) in rest;
      SomeFirst(rest, owner, second.value);
      SecondContactIsNextBest(before, owner, first, NthContact(rest, owner, 1).value);
      FirstIsIn(rest, owner, NthContact(rest, owner, 1).value);
    }
  }

  lemma FirstIsIn(table: Contacts, owner: int, t: string)
    requires Best(table, owner, t)
    ensures (owner, t) in table
  {
  }

  /** What is served of an owner's contacts changes exactly when `ContactsShow` says so. */
  lemma ContactsShowExactly(before: Contacts, after: Contacts, added: set<string>, rank: int, owner: int)
    requires Upserted(before, after, added, rank, owner)
    ensures ServedAlike(before, after, owner) <==> !ContactsShow(before, added, rank, owner)
  {
    hide NthContact, Overtakes;
    if t :| t in added && (owner, t) !in before {
      assert (owner, t) in after && t in TextsOf(after, owner) && t !in TextsOf(before, owner);
    } else {
      assert forall t :: (owner, t) in after <==> (owner, t) in before;
      assert TextsOf(after, owner) == TextsOf(before, owner) by { SameTexts(before, after, owner); }
      var first, second := NthContact(before, owner, 1), NthContact(before, owner, 2);
      if t :| (owner, t) in before {
        SomeFirst(before, owner, t);
        FirstStays(before, after, added, rank, owner, first.value);
        if NthContact(after, owner, 1) == first {
          if second.Some? {
            SecondStays(before, after, added, rank, owner, first.value, second.value);
          } else {
            NoSecond(before, after, owner, first.value);
          }
        }
      } else {
        NoFirst(before, owner);
        NoFirst(after, owner);
      }
    }
  }

  lemma SameTexts(before: Contacts, after: Contacts, owner: int)
    requires forall t :: (owner, t) in after <==> (owner, t) in before
    ensures TextsOf(after, owner) == TextsOf(before, owner)
  {
    forall t | t in TextsOf(after, owner) ensures t in TextsOf(before, owner) { assert (owner, t) in after; }
    forall t | t in TextsOf(before, owner) ensures t in TextsOf(after, owner) { assert (owner, t) in before; }
  }

  /** The upsert statement, owner by owner. */
  lemma UpsertedFor(table: Contacts, owners: set<int>, texts: int -> set<string>, rank: int, owner: int)
    ensures Upserted(table, UpsertContacts(table, owners, texts, rank), if owner in owners then texts(owner) else {}, rank, owner)
  {
  }
}
