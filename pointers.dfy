/**
 * The controller's `pointers` map from touch identifier to the position
 * recorded when the touch started. A JavaScript `Map` keeps its keys in
 * insertion order, so it is modelled as a list of contacts with distinct
 * identifiers: `set` overwrites an existing key in its slot or appends a
 * new one, and `delete` removes the key's entry.
 */
module Pointers {
  import opened Wrappers
  import opened Geometry

  /** A touch sample `(identifier, clientX, clientY)`. */
  datatype Contact = Contact(id: int, pos: Point)

  ghost predicate UniqueIds(ps: seq<Contact>) {
    forall i, j :: 0 <= i < j < |ps| ==> ps[i].id != ps[j].id
  }

  /** `Map.get`: the position of the first entry with this identifier. */
  function Lookup(ps: seq<Contact>, id: int): (r: Option<Point>)
    ensures r.Some? <==> exists i :: 0 <= i < |ps| && ps[i].id == id
  {
    if ps == [] then None
    else if ps[0].id == id then Some(ps[0].pos)
    else
      var r := Lookup(ps[1..], id);
      assert forall i :: 1 <= i < |ps| ==> ps[i] == ps[1..][i - 1];
      r
  }

  predicate Tracked(ps: seq<Contact>, id: int) {
    Lookup(ps, id).Some?
  }

  /** Looking up in a list with a first entry `x` checks `x` before the rest. */
  lemma LookupCons(x: Contact, s: seq<Contact>)
    ensures forall k :: Lookup([x] + s, k) == if k == x.id then Some(x.pos) else Lookup(s, k)
    ensures forall k :: Tracked([x] + s, k) <==> k == x.id || Tracked(s, k)
  {
    assert ([x] + s)[1..] == s;
  }

  /** `Map.set`: overwrite the key in place, or append it as the newest key. */
  function Put(ps: seq<Contact>, c: Contact): (r: seq<Contact>)
    ensures !Tracked(ps, c.id) ==> r == ps + [c]
    ensures Tracked(ps, c.id) ==> |r| == |ps|
    ensures forall k :: Tracked(r, k) <==> Tracked(ps, k) || k == c.id
  {
    if ps == [] then [c]
    else if ps[0].id == c.id then [c] + ps[1..]
    else
      var rest := Put(ps[1..], c);
      LookupCons(ps[0], ps[1..]);
      LookupCons(ps[0], rest);
      assert ps == [ps[0]] + ps[1..];
      [ps[0]] + rest
  }

  /** `Map.delete`: drop the key's entry; an absent key changes nothing. */
  function Remove(ps: seq<Contact>, id: int): (r: seq<Contact>)
    ensures !Tracked(ps, id) ==> r == ps
    ensures Tracked(ps, id) ==> |r| == |ps| - 1
    ensures forall k :: k != id ==> (Tracked(r, k) <==> Tracked(ps, k))
  {
    if ps == [] then []
    else if ps[0].id == id then ps[1..]
    else
      var rest := Remove(ps[1..], id);
      LookupCons(ps[0], ps[1..]);
      LookupCons(ps[0], rest);
      assert ps == [ps[0]] + ps[1..];
      [ps[0]] + rest
  }

  /** The recorded positions in insertion order, as `Map.forEach` visits them. */
  function Positions(ps: seq<Contact>): (r: seq<Point>)
    ensures |r| == |ps|
    ensures forall i :: 0 <= i < |ps| ==> r[i] == ps[i].pos
  {
    seq(|ps|, i requires 0 <= i < |ps| => ps[i].pos)
  }

  /**
   * The map after `set` for every changed touch, visited from the last to
   * the first as the source's backward loop does.
   */
  function RecordAll(ps: seq<Contact>, cs: seq<Contact>): (r: seq<Contact>)
    ensures |ps| <= |r| <= |ps| + |cs|
    ensures forall k :: Tracked(ps, k) ==> Tracked(r, k)
    ensures forall i :: 0 <= i < |cs| ==> Tracked(r, cs[i].id)
  {
    if cs == [] then ps else Put(RecordAll(ps, cs[1..]), cs[0])
  }

  /** The map after `delete` for every changed touch, last to first. */
  function RemoveAll(ps: seq<Contact>, cs: seq<Contact>): (r: seq<Contact>)
    ensures |ps| - |cs| <= |r| <= |ps|
    ensures forall k :: Tracked(r, k) ==> Tracked(ps, k)
  {
    if cs == [] then ps else Remove(RemoveAll(ps, cs[1..]), cs[0].id)
  }

  lemma {:induction false} LookupPut(ps: seq<Contact>, c: Contact, k: int)
    ensures Lookup(Put(ps, c), k) == if k == c.id then Some(c.pos) else Lookup(ps, k)
  {
    if ps != [] && ps[0].id != c.id {
      LookupPut(ps[1..], c, k);
      assert Put(ps, c)[1..] == Put(ps[1..], c);
    }
  }

  /** With distinct identifiers the first key does not occur again further on. */
  lemma HeadNotInTail(ps: seq<Contact>)
    requires UniqueIds(ps) && ps != []
    ensures UniqueIds(ps[1..])
    ensures !Tracked(ps[1..], ps[0].id)
  {
  }

  lemma {:induction false} PutKeepsUnique(ps: seq<Contact>, c: Contact)
    requires UniqueIds(ps)
    ensures UniqueIds(Put(ps, c))
  {
    if ps != [] && ps[0].id != c.id {
      HeadNotInTail(ps);
      PutKeepsUnique(ps[1..], c);
      var r := Put(ps, c);
      assert r[1..] == Put(ps[1..], c);
      forall j | 1 <= j < |r| ensures r[0].id != r[j].id {
        assert r[j] == r[1..][j - 1];
        LookupPut(ps[1..], c, r[j].id);
      }
    }
  }

  lemma {:induction false} LookupRemove(ps: seq<Contact>, id: int, k: int)
    requires UniqueIds(ps)
    ensures Lookup(Remove(ps, id), k) == if k == id then None else Lookup(ps, k)
  {
    if ps != [] {
      if ps[0].id != id {
        LookupRemove(ps[1..], id, k);
        assert Remove(ps, id)[1..] == Remove(ps[1..], id);
      }
    }
  }

  lemma {:induction false} RemoveKeepsUnique(ps: seq<Contact>, id: int)
    requires UniqueIds(ps)
    ensures UniqueIds(Remove(ps, id))
  {
    if ps != [] && ps[0].id != id {
      HeadNotInTail(ps);
      RemoveKeepsUnique(ps[1..], id);
      var r := Remove(ps, id);
      assert r[1..] == Remove(ps[1..], id);
      forall j | 1 <= j < |r| ensures r[0].id != r[j].id {
        assert r[j] == r[1..][j - 1];
        assert Lookup(r[1..], r[j].id).Some?;
        LookupRemove(ps[1..], id, r[j].id);
      }
    }
  }

  /**
   * After recording the changed touches, a key they mention maps to the
   * position of the FIRST changed touch with that key (the backward loop
   * writes it last); every other key keeps its old position.
   */
  lemma {:induction false} RecordAllLookup(ps: seq<Contact>, cs: seq<Contact>, k: int)
    ensures Lookup(RecordAll(ps, cs), k) ==
            if Tracked(cs, k) then Lookup(cs, k) else Lookup(ps, k)
  {
    if cs != [] {
      RecordAllLookup(ps, cs[1..], k);
      LookupPut(RecordAll(ps, cs[1..]), cs[0], k);
    }
  }

  lemma {:induction false} RecordAllKeepsUnique(ps: seq<Contact>, cs: seq<Contact>)
    requires UniqueIds(ps)
    ensures UniqueIds(RecordAll(ps, cs))
  {
    if cs != [] {
      RecordAllKeepsUnique(ps, cs[1..]);
      PutKeepsUnique(RecordAll(ps, cs[1..]), cs[0]);
    }
  }

  /** After deleting the changed touches none of their keys is tracked; others are untouched. */
  lemma {:induction false} RemoveAllLookup(ps: seq<Contact>, cs: seq<Contact>, k: int)
    requires UniqueIds(ps)
    ensures UniqueIds(RemoveAll(ps, cs))
    ensures Lookup(RemoveAll(ps, cs), k) ==
            if Tracked(cs, k) then None else Lookup(ps, k)
  {
    if cs != [] {
      RemoveAllLookup(ps, cs[1..], k);
      RemoveKeepsUnique(RemoveAll(ps, cs[1..]), cs[0].id);
      LookupRemove(RemoveAll(ps, cs[1..]), cs[0].id, k);
    }
  }
}
