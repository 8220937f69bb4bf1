/**
 * Reordering and removal on the field list: the lookup of a field's
 * position by id (`findIndex`), the drag-and-drop move (dnd-kit's
 * `arrayMove`, remove then insert), the drop handler's guards, and
 * removal by id (`filter`).
 */
module Reorder {
  import opened Effects
  import opened Fields

  /** Some field of the list has this id. */
  predicate HasId(fields: seq<Field>, id: string) {
    exists f | f in fields :: f.id == id
  }

  /**
   * `fields.findIndex(field => field.id === id)`: the first position whose
   * field has the id, or -1 when there is none.
   */
  function FindIndex(fields: seq<Field>, id: string): (k: int)
    ensures -1 <= k < |fields|
    ensures k == -1 <==> !HasId(fields, id)
    ensures k >= 0 ==> fields[k].id == id && forall i | 0 <= i < k :: fields[i].id != id
  {
    if fields == [] then -1
    else if fields[0].id == id then 0
    else
      var k := FindIndex(fields[1..], id);
      assert forall f | f in fields && f != fields[0] :: f in fields[1..];
      if k == -1 then -1 else k + 1
  }

  /** `s` without its element at `i`. */
  function RemoveAt<T>(s: seq<T>, i: nat): (r: seq<T>)
    requires i < |s|
    ensures |r| == |s| - 1
  {
    s[..i] + s[i + 1..]
  }

  /**
   * `arrayMove(s, from, to)`: the element at `from` is taken out and put
   * back so that it sits at `to`. The result is a permutation of `s` with
   * that element at `to`, and taking it out again leaves the other
   * elements exactly as taking it out of `s` did, so they keep their
   * relative order.
   */
  function Move<T>(s: seq<T>, from: nat, to: nat): (r: seq<T>)
    requires from < |s| && to < |s|
    ensures |r| == |s|
    ensures r[to] == s[from]
    ensures RemoveAt(r, to) == RemoveAt(s, from)
    ensures multiset(r) == multiset(s)
  {
    var rest := RemoveAt(s, from);
    var r := rest[..to] + [s[from]] + rest[to..];
    assert rest == s[..from] + s[from + 1..];
    assert r[..to] == rest[..to] && r[to + 1..] == rest[to..];
    assert rest == rest[..to] + rest[to..];
    assert s == s[..from] + [s[from]] + s[from + 1..];
    assert multiset(r) == multiset(rest[..to]) + multiset([s[from]]) + multiset(rest[to..]);
    assert multiset(rest) == multiset(rest[..to]) + multiset(rest[to..]);
    assert multiset(rest) == multiset(s[..from]) + multiset(s[from + 1..]);
    assert multiset(s) == multiset(s[..from]) + multiset([s[from]]) + multiset(s[from + 1..]);
    assert multiset(r) == multiset(rest) + multiset([s[from]]);
    assert multiset(s) == multiset(rest) + multiset([s[from]]);
    r
  }

  /** Where each element ends up: the elements between the two positions shift by one. */
  lemma MoveAt<T>(s: seq<T>, from: nat, to: nat, k: nat)
    requires from < |s| && to < |s| && k < |s|
    ensures Move(s, from, to)[k] ==
      if k == to then s[from]
      else if from <= k < to then s[k + 1]
      else if to < k <= from then s[k - 1]
      else s[k]
  {
    var r, rest := Move(s, from, to), RemoveAt(s, from);
    if k < to {
      assert r[k] == RemoveAt(r, to)[k] == rest[k];
    } else if k > to {
      assert r[k] == RemoveAt(r, to)[k - 1] == rest[k - 1];
    }
  }

  /** Moving back from `to` to `from` undoes a move. */
  lemma MoveBack<T>(s: seq<T>, from: nat, to: nat)
    requires from < |s| && to < |s|
    ensures Move(Move(s, from, to), to, from) == s
  {
    var r := Move(s, from, to);
    var rest := RemoveAt(r, to);
    assert rest == RemoveAt(s, from);
    assert rest[..from] == s[..from];
    assert rest[from..] == s[from + 1..];
    assert s == s[..from] + [s[from]] + s[from + 1..];
  }

  /**
   * `handleDragEnd` with its not-found guard: no drop target, a drop on the
   * dragged field itself, or an id not in the list leaves the list as it
   * is; otherwise the dragged field (the first with the active id) is moved
   * to the position of the target (the first with the target's id).
   */
  function DragEnd(fields: seq<Field>, active: string, over: Option<string>): (r: seq<Field>)
    ensures |r| == |fields|
    ensures multiset(r) == multiset(fields)
    ensures over.None? || over.value == active || !HasId(fields, active) || !HasId(fields, over.value) ==> r == fields
    ensures over.Some? && over.value != active && HasId(fields, active) && HasId(fields, over.value) ==>
      var from, to := FindIndex(fields, active), FindIndex(fields, over.value);
      && r[to] == fields[from]
      && RemoveAt(r, to) == RemoveAt(fields, from)
  {
    if over.None? || active == over.value then fields
    else
      var oldIndex := FindIndex(fields, active);
      var newIndex := FindIndex(fields, over.value);
      if oldIndex == -1 || newIndex == -1 then fields
      else Move(fields, oldIndex, newIndex)
  }

  /** Dropping the first of three fields onto the last gives `[B, C, A]`. */
  lemma DragFirstOntoLast(a: Field, b: Field, c: Field)
    requires a.id != b.id && a.id != c.id && b.id != c.id
    ensures DragEnd([a, b, c], a.id, Some(c.id)) == [b, c, a]
  {
    var fields := [a, b, c];
    assert FindIndex(fields, a.id) == 0;
    assert FindIndex(fields, c.id) == 2 by {
      assert FindIndex(fields[1..], c.id) == 1 by {
        assert fields[1..][1..] == [c];
      }
    }
    assert Move(fields, 0, 2) == [b, c, a];
  }

  /** A reordering keeps every field, so a list that passed the import check still does. */
  lemma PermutationKeepsImportCheck(before: seq<Field>, after: seq<Field>)
    requires multiset(after) == multiset(before)
    requires AllPassImportCheck(before)
    ensures AllPassImportCheck(after)
  {
    forall f | f in after
      ensures PassesImportCheck(f)
    {
      assert f in multiset(after);
    }
  }

  /** How many fields of the list have the id. */
  function CountId(fields: seq<Field>, id: string): (n: nat)
    ensures n <= |fields|
  {
    if fields == [] then 0
    else (if fields[0].id == id then 1 else 0) + CountId(fields[1..], id)
  }

  /** No field has the id exactly when the count is zero. */
  lemma {:induction false} CountIdZero(fields: seq<Field>, id: string)
    ensures CountId(fields, id) == 0 <==> !HasId(fields, id)
  {
    if fields != [] {
      CountIdZero(fields[1..], id);
      assert forall f | f in fields && f != fields[0] :: f in fields[1..];
      assert fields[0] in fields;
    }
  }

  /**
   * `fields.filter(field => field.id !== id)`: the list shrinks by exactly
   * the number of fields with the id.
   */
  function RemoveId(fields: seq<Field>, id: string): (r: seq<Field>)
    ensures |r| == |fields| - CountId(fields, id)
  {
    if fields == [] then []
    else (if fields[0].id == id then [] else [fields[0]]) + RemoveId(fields[1..], id)
  }

  /** Exactly the fields with another id remain. */
  lemma {:induction false} RemoveIdMembers(fields: seq<Field>, id: string)
    ensures forall f :: f in RemoveId(fields, id) <==> f in fields && f.id != id
  {
    if fields != [] {
      RemoveIdMembers(fields[1..], id);
      assert fields == [fields[0]] + fields[1..];
    }
  }

  /** Removing an id that no field has leaves the list unchanged. */
  lemma {:induction false} RemoveAbsentId(fields: seq<Field>, id: string)
    requires !HasId(fields, id)
    ensures RemoveId(fields, id) == fields
  {
    if fields != [] {
      assert fields[0] in fields;
      assert !HasId(fields[1..], id) by {
        assert forall f | f in fields[1..] :: f in fields;
      }
      RemoveAbsentId(fields[1..], id);
      assert fields == [fields[0]] + fields[1..];
    }
  }

  /** Removal works piecewise, so the remaining fields keep their original order. */
  lemma {:induction false} RemoveIdAppend(a: seq<Field>, b: seq<Field>, id: string)
    ensures RemoveId(a + b, id) == RemoveId(a, id) + RemoveId(b, id)
  {
    if a == [] {
      assert a + b == b;
    } else {
      var head := if a[0].id == id then [] else [a[0]];
      var restA, restB := RemoveId(a[1..], id), RemoveId(b, id);
      assert RemoveId(a + b, id) == head + RemoveId(a[1..] + b, id) by {
        assert (a + b)[0] == a[0];
        assert (a + b)[1..] == a[1..] + b;
      }
      assert RemoveId(a[1..] + b, id) == restA + restB by {
        RemoveIdAppend(a[1..], b, id);
      }
      assert RemoveId(a, id) == head + restA;
      assert head + (restA + restB) == (head + restA) + restB;
    }
  }

  /** Removing the same id twice is the same as removing it once. */
  lemma RemoveIdIdempotent(fields: seq<Field>, id: string)
    ensures RemoveId(RemoveId(fields, id), id) == RemoveId(fields, id)
  {
    RemoveIdMembers(fields, id);
    assert !HasId(RemoveId(fields, id), id);
    RemoveAbsentId(RemoveId(fields, id), id);
  }

  /** Removal keeps only fields of the list, so a list that passed the import check still does. */
  lemma RemovalKeepsImportCheck(fields: seq<Field>, id: string)
    requires AllPassImportCheck(fields)
    ensures AllPassImportCheck(RemoveId(fields, id))
  {
    RemoveIdMembers(fields, id);
  }
}
