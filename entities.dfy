/** The part every entity store shares (cleaning jobs, calendar events,
    bookings, houses, properties): a record is an opaque string `id`, the
    `createdAt`/`updatedAt` timestamps (integers standing for the ISO-8601
    strings) and the entity's own fields `data`. The store keeps an ordered
    sequence of records; this module models `findIndex`, `find`, the
    replace-at-index update and the `filter` deletion over it. */
module Entities {
  import opened Options
  import opened Seqs

  datatype Record<B> = Record(id: string, createdAt: int, updatedAt: int, data: B)

  /** `Partial<T>` for the shared fields; `data` is the entity's own partial
      record. `None` stands for a key the update object does not have. */
  datatype Patch<P> = Patch(id: Option<string>, createdAt: Option<int>, updatedAt: Option<int>, data: P)

  /** Some record of `s` carries `id`. */
  predicate HasId<B>(s: seq<Record<B>>, id: string) {
    exists k :: 0 <= k < |s| && s[k].id == id
  }

  /** `findIndex(r => r.id === id)`: the first position carrying `id`, or -1. */
  function IndexOf<B>(s: seq<Record<B>>, id: string): (i: int)
    ensures -1 <= i < |s|
    ensures i == -1 <==> !HasId(s, id)
    ensures 0 <= i ==> s[i].id == id && forall k :: 0 <= k < i ==> s[k].id != id
  {
    if s == [] then -1
    else if s[0].id == id then 0
    else
      var j := IndexOf(s[1..], id);
      if j == -1 then -1 else j + 1
  }

  /** `find(r => r.id === id)`: the first record carrying `id`, if any. */
  function FindById<B>(s: seq<Record<B>>, id: string): (r: Option<Record<B>>)
    ensures r.None? <==> !HasId(s, id)
    ensures r.Some? ==> r.value.id == id && r.value == s[IndexOf(s, id)]
  {
    if s == [] then None
    else if s[0].id == id then Some(s[0])
    else FindById(s[1..], id)
  }

  /** The record that `create`/`add` appends: the input's fields, stamped
      with the fresh id and with both timestamps set to `now` (the stamps
      override whatever the input carried). */
  function Stamp<B>(data: B, freshId: string, now: int): Record<B> {
    Record(freshId, now, now, data)
  }

  /** `{...r, ...patch, updatedAt: now}` for the shared fields: a key present
      in the patch wins, `updatedAt` is always `now`, and `data` is the
      already merged entity part. */
  function Merge<B, P>(r: Record<B>, patch: Patch<P>, data: B, now: int): (m: Record<B>)
    ensures m.id == (if patch.id.Some? then patch.id.value else r.id)
    ensures m.createdAt == (if patch.createdAt.Some? then patch.createdAt.value else r.createdAt)
    ensures m.updatedAt == now && m.data == data
  {
    Record(patch.id.GetOr(r.id), patch.createdAt.GetOr(r.createdAt), now, data)
  }

  /** The patch's own `updatedAt` never wins over the refresh; merging the
      same patch again changes nothing; and a patch without shared keys
      keeps the id and creation time. */
  lemma MergeProperties<B, P>(r: Record<B>, patch: Patch<P>, data: B, now: int, stamp: Option<int>)
    ensures Merge(r, patch.(updatedAt := stamp), data, now) == Merge(r, patch, data, now)
    ensures Merge(Merge(r, patch, data, now), patch, data, now) == Merge(r, patch, data, now)
    ensures Merge(r, Patch(None, None, stamp, patch.data), r.data, now) == r.(updatedAt := now)
  {
  }

  /** `const i = findIndex(...); if (i !== -1) s[i] = f(s[i])`: only the first
      record carrying `id` is replaced; an absent id leaves `s` as it was. */
  function ApplyFirst<B>(s: seq<Record<B>>, id: string, f: Record<B> -> Record<B>): (r: seq<Record<B>>)
    ensures |r| == |s|
    ensures !HasId(s, id) ==> r == s
    ensures forall k :: 0 <= k < |s| && k != IndexOf(s, id) ==> r[k] == s[k]
    ensures HasId(s, id) ==> r[IndexOf(s, id)] == f(s[IndexOf(s, id)])
  {
    var i := IndexOf(s, id);
    if i == -1 then s else s[i := f(s[i])]
  }

  /** Two replacements of the first record carrying `id`, the first of which
      keeps the id, act as one replacement by their composition `h`: the
      second finds the record the first replaced. */
  lemma ApplyFirstTwice<B>(s: seq<Record<B>>, id: string, f: Record<B> -> Record<B>,
                           g: Record<B> -> Record<B>, h: Record<B> -> Record<B>)
    requires forall r :: f(r).id == r.id
    requires forall r :: h(r) == g(f(r))
    ensures ApplyFirst(ApplyFirst(s, id, f), id, g) == ApplyFirst(s, id, h)
  {
    var t := ApplyFirst(s, id, f);
    if HasId(s, id) {
      var i := IndexOf(s, id);
      assert t[i].id == id;
      assert forall k :: 0 <= k < i ==> t[k] == s[k];
      assert IndexOf(t, id) == i;
    } else {
      assert t == s;
    }
  }

  /** `s.filter(r => r.id !== id)`: every record carrying `id` is removed. */
  function RemoveById<B(!new)>(s: seq<Record<B>>, id: string): (r: seq<Record<B>>)
    ensures !HasId(r, id)
    ensures forall x :: x in r <==> x in s && x.id != id
    ensures |r| <= |s|
  {
    var r := Filter(s, (x: Record<B>) => x.id != id);
    assert forall k :: 0 <= k < |r| ==> r[k] in r;
    r
  }

  /** Ids are unique: what a fresh UUID per record maintains. */
  predicate UniqueIds<B>(s: seq<Record<B>>) {
    forall j, k :: 0 <= j < k < |s| ==> s[j].id != s[k].id
  }

  /** After appending a record whose id was not present, looking that id up
      yields the new record, and every other lookup is unchanged. */
  lemma {:induction false} FindAfterAppend<B>(s: seq<Record<B>>, x: Record<B>, id: string)
    requires !HasId(s, x.id)
    ensures FindById(s + [x], x.id) == Some(x)
    ensures id != x.id ==> FindById(s + [x], id) == FindById(s, id)
  {
    var t := s + [x];
    assert t[|s|] == x;
    assert forall k :: 0 <= k < |s| ==> t[k] == s[k];
    assert HasId(t, x.id);
    if HasId(s, id) {
      var i := IndexOf(s, id);
      assert IndexOf(t, id) == i;
    } else if id != x.id {
      assert !HasId(t, id) by {
        forall k | 0 <= k < |t| ensures t[k].id != id {
          if k < |s| { assert t[k] == s[k]; }
        }
      }
    }
  }

  /** Appending a record with a fresh id keeps ids unique. */
  lemma AppendFreshKeepsUnique<B>(s: seq<Record<B>>, x: Record<B>)
    requires UniqueIds(s) && !HasId(s, x.id)
    ensures UniqueIds(s + [x])
  {
    var t := s + [x];
    forall j, k | 0 <= j < k < |t| ensures t[j].id != t[k].id {
      assert t[j] == s[j];
      if k < |s| { assert t[k] == s[k]; }
    }
  }

  /** After a deletion the id is gone: `find` yields nothing. The others keep
      their order, deleting again changes nothing, and deleting an absent id
      changes nothing. */
  lemma RemoveByIdProperties<B(!new)>(s: seq<Record<B>>, id: string)
    ensures FindById(RemoveById(s, id), id) == None
    ensures IsSubsequence(RemoveById(s, id), s)
    ensures RemoveById(RemoveById(s, id), id) == RemoveById(s, id)
    ensures !HasId(s, id) ==> RemoveById(s, id) == s
  {
    FilterIsSubsequence(s, (x: Record<B>) => x.id != id);
    FilterIdempotent(s, (x: Record<B>) => x.id != id);
    if !HasId(s, id) {
      assert forall x :: x in s ==> x.id != id;
      FilterKeepsAll(s, (x: Record<B>) => x.id != id);
    }
  }

  /** Deleting one id does not disturb the lookup of any other id. */
  lemma {:induction false} FindAfterRemove<B(!new)>(s: seq<Record<B>>, id: string, other: string)
    requires other != id
    ensures FindById(RemoveById(s, id), other) == FindById(s, other)
  {
    if s != [] {
      FindAfterRemove(s[1..], id, other);
      var p := (x: Record<B>) => x.id != id;
      assert RemoveById(s, id) == Filter(s, p);
      assert RemoveById(s[1..], id) == Filter(s[1..], p);
      if s[0].id != id {
        var r := RemoveById(s, id);
        assert r == [s[0]] + RemoveById(s[1..], id);
        assert r[0] == s[0] && r[1..] == RemoveById(s[1..], id);
      } else {
        assert RemoveById(s, id) == RemoveById(s[1..], id);
      }
    }
  }
}
