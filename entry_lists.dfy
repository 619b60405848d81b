/** The list edits of the dashboard, over any entry type with a string id:
    append (spread), remove by id (Array.prototype.filter) and update by id
    (Array.prototype.map). Ids are not unique, so remove and update act on every
    entry that carries the id. */
module EntryLists {

  /** The number of entries whose id is `id`. */
  function CountId<T>(s: seq<T>, idOf: T -> string, id: string): (n: nat)
    ensures n <= |s|
  {
    if s == [] then 0 else (if idOf(s[0]) == id then 1 else 0) + CountId(s[1..], idOf, id)
  }

  /** `s.filter(x => idOf(x) !== id)` */
  function RemoveById<T>(s: seq<T>, idOf: T -> string, id: string): (r: seq<T>)
    ensures |r| == |s| - CountId(s, idOf, id)
    ensures forall x :: x in r ==> x in s && idOf(x) != id
    ensures forall x :: x in s && idOf(x) != id ==> x in r
  {
    if s == [] then []
    else
      var rest := RemoveById(s[1..], idOf, id);
      assert forall x :: x in s ==> x == s[0] || x in s[1..];
      if idOf(s[0]) == id then rest else [s[0]] + rest
  }

  /** `s.map(x => idOf(x) === id ? f(x) : x)` */
  function UpdateById<T>(s: seq<T>, idOf: T -> string, id: string, f: T -> T): (r: seq<T>)
    ensures |r| == |s|
    ensures forall i :: 0 <= i < |s| && idOf(s[i]) == id ==> r[i] == f(s[i])
    ensures forall i :: 0 <= i < |s| && idOf(s[i]) != id ==> r[i] == s[i]
  {
    if s == [] then []
    else
      var rest := UpdateById(s[1..], idOf, id, f);
      assert forall i :: 1 <= i < |s| ==> s[1..][i - 1] == s[i] && ([s[0]] + rest)[i] == rest[i - 1];
      [if idOf(s[0]) == id then f(s[0]) else s[0]] + rest
  }

  /** Removal distributes over concatenation: it keeps relative order. */
  lemma {:induction false} RemoveConcat<T>(a: seq<T>, b: seq<T>, idOf: T -> string, id: string)
    ensures RemoveById(a + b, idOf, id) == RemoveById(a, idOf, id) + RemoveById(b, idOf, id)
  {
    if a == [] {
      assert a + b == b;
    } else {
      assert (a + b)[0] == a[0];
      assert (a + b)[1..] == a[1..] + b;
      RemoveConcat(a[1..], b, idOf, id);
    }
  }

  /** Order: a kept entry s[i] sits in the result right after the kept entries before it. */
  lemma RemoveKeepsOrder<T>(s: seq<T>, idOf: T -> string, id: string, i: nat)
    requires i < |s| && idOf(s[i]) != id
    ensures |RemoveById(s[..i], idOf, id)| < |RemoveById(s, idOf, id)|
    ensures RemoveById(s, idOf, id)[|RemoveById(s[..i], idOf, id)|] == s[i]
  {
    assert s == s[..i] + ([s[i]] + s[i + 1..]);
    RemoveConcat(s[..i], [s[i]] + s[i + 1..], idOf, id);
    RemoveConcat([s[i]], s[i + 1..], idOf, id);
    assert RemoveById([s[i]], idOf, id) == [s[i]];
  }

  /** Removing an id no entry carries changes nothing. */
  lemma {:induction false} RemoveAbsent<T>(s: seq<T>, idOf: T -> string, id: string)
    requires forall x :: x in s ==> idOf(x) != id
    ensures RemoveById(s, idOf, id) == s
  {
    if s != [] {
      RemoveAbsent(s[1..], idOf, id);
    }
  }

  /** Removing an id twice is removing it once. */
  lemma RemoveIdempotent<T>(s: seq<T>, idOf: T -> string, id: string)
    ensures RemoveById(RemoveById(s, idOf, id), idOf, id) == RemoveById(s, idOf, id)
  {
    RemoveAbsent(RemoveById(s, idOf, id), idOf, id);
  }

  /** Removing the id of an appended entry removes that entry, and every earlier entry
      that shares its id. */
  lemma RemoveAfterAppend<T>(s: seq<T>, e: T, idOf: T -> string)
    ensures RemoveById(s + [e], idOf, idOf(e)) == RemoveById(s, idOf, idOf(e))
  {
    RemoveConcat(s, [e], idOf, idOf(e));
    assert RemoveById([e], idOf, idOf(e)) == [];
  }

  /** Remove undoes append when the new id is fresh. */
  lemma RemoveUndoesAppend<T>(s: seq<T>, e: T, idOf: T -> string)
    requires forall x :: x in s ==> idOf(x) != idOf(e)
    ensures RemoveById(s + [e], idOf, idOf(e)) == s
  {
    RemoveAfterAppend(s, e, idOf);
    RemoveAbsent(s, idOf, idOf(e));
  }

  /** Updating an id no entry carries changes nothing. */
  lemma UpdateAbsent<T>(s: seq<T>, idOf: T -> string, id: string, f: T -> T)
    requires forall x :: x in s ==> idOf(x) != id
    ensures UpdateById(s, idOf, id, f) == s
  {
  }

  /** An update that keeps ids is invisible to a later removal of that id. */
  lemma {:induction false} RemoveAfterUpdate<T>(s: seq<T>, idOf: T -> string, id: string, f: T -> T)
    requires forall x :: idOf(f(x)) == idOf(x)
    ensures RemoveById(UpdateById(s, idOf, id, f), idOf, id) == RemoveById(s, idOf, id)
  {
    if s != [] {
      var u := UpdateById(s, idOf, id, f);
      assert u[1..] == UpdateById(s[1..], idOf, id, f);
      assert idOf(u[0]) == idOf(s[0]);
      RemoveAfterUpdate(s[1..], idOf, id, f);
    }
  }
}
