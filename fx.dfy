/**
 * The effect-animation queue of src/lib/stores/fx.ts: an ordered list of
 * flying-number / flying-card effects that the UI plays and then removes.
 */
module Fx {
  import opened Options

  /** A DOM rectangle; carried through unchanged, never inspected. */
  type Rect(==, !new)

  datatype FxKind = Damage | Heal

  /** One queued effect. `duration` is optional in the record type. */
  datatype FxItem = FxItem(
    id: string,
    fromRect: Rect,
    targetRect: Rect,
    imgUrl: string,
    frameUrl: Option<string>,
    kind: FxKind,
    amount: real,
    duration: Option<real>)

  /** What a caller of `start` supplies: an item without its id. */
  datatype FxInput = FxInput(
    fromRect: Rect,
    targetRect: Rect,
    imgUrl: string,
    frameUrl: Option<string>,
    kind: FxKind,
    amount: real,
    duration: Option<real>)

  /** Total duration (ms) given to an effect whose input names none. */
  const DefaultDuration: real := 900.0

  /** The input an item was made from: the item without its id. */
  function Strip(item: FxItem): FxInput
  {
    FxInput(item.fromRect, item.targetRect, item.imgUrl, item.frameUrl,
            item.kind, item.amount, item.duration)
  }

  /**
   * The item `start` stores: the input's fields, the fresh id, and the
   * input's duration or the 900 ms default.
   */
  function MakeItem(input: FxInput, id: string): (item: FxItem)
    ensures item.id == id
    ensures item.duration.Some?
    ensures input.duration.Some? ==> Strip(item) == input
    ensures input.duration.None? ==> Strip(item) == input.(duration := Some(DefaultDuration))
  {
    FxItem(id, input.fromRect, input.targetRect, input.imgUrl, input.frameUrl,
           input.kind, input.amount, Some(input.duration.GetOr(DefaultDuration)))
  }

  /** Every item in the list has a duration (true of every item `start` stores). */
  ghost predicate AllTimed(s: seq<FxItem>)
  {
    forall i :: 0 <= i < |s| ==> s[i].duration.Some?
  }

  /** True when no item in `s` carries `id`. */
  ghost predicate Absent(s: seq<FxItem>, id: string)
  {
    forall i :: 0 <= i < |s| ==> s[i].id != id
  }

  /** `s.filter(x => x.id !== id)`: the list without the items that carry `id`. */
  function Without(s: seq<FxItem>, id: string): (r: seq<FxItem>)
    ensures |r| <= |s|
    ensures Absent(r, id)
    ensures forall x :: x in r <==> x in s && x.id != id
  {
    if s == [] then []
    else if s[0].id == id then Without(s[1..], id)
    else [s[0]] + Without(s[1..], id)
  }

  /** Filtering distributes over concatenation: order across the two parts is kept. */
  lemma {:induction false} WithoutAppend(a: seq<FxItem>, b: seq<FxItem>, id: string)
    ensures Without(a + b, id) == Without(a, id) + Without(b, id)
  {
    if a != [] {
      assert (a + b)[1..] == a[1..] + b;
      WithoutAppend(a[1..], b, id);
    } else {
      assert a + b == b;
    }
  }

  /**
   * An item whose id differs survives, at the position given by the number of
   * survivors before it.
   */
  lemma {:induction false} WithoutKeeps(s: seq<FxItem>, id: string, i: nat)
    requires i < |s| && s[i].id != id
    ensures |Without(s[..i], id)| < |Without(s, id)|
    ensures Without(s, id)[|Without(s[..i], id)|] == s[i]
  {
    assert s == s[..i] + ([s[i]] + s[i + 1..]);
    WithoutAppend(s[..i], [s[i]] + s[i + 1..], id);
    assert ([s[i]] + s[i + 1..])[1..] == s[i + 1..];
  }

  /** The survivors of a prefix are a prefix of the survivors: filtering is monotone. */
  lemma {:induction false} WithoutPrefix(s: seq<FxItem>, id: string, j: nat)
    requires j <= |s|
    ensures |Without(s[..j], id)| <= |Without(s, id)|
    ensures Without(s[..j], id) == Without(s, id)[..|Without(s[..j], id)|]
  {
    assert s == s[..j] + s[j..];
    WithoutAppend(s[..j], s[j..], id);
  }

  /**
   * Two surviving items keep their relative order: the one earlier in the
   * input is earlier in the output.
   */
  lemma {:induction false} WithoutKeepsOrder(s: seq<FxItem>, id: string, i: nat, j: nat)
    requires i < j < |s| && s[i].id != id && s[j].id != id
    ensures |Without(s[..i], id)| < |Without(s[..j], id)|
  {
    WithoutKeeps(s[..j], id, i);
    assert s[..j][..i] == s[..i];
  }

  /** Every item with a different id survives as often as it occurred; the others vanish. */
  lemma {:induction false} WithoutCount(s: seq<FxItem>, id: string, x: FxItem)
    ensures multiset(Without(s, id))[x] == if x.id == id then 0 else multiset(s)[x]
  {
    if s != [] {
      WithoutCount(s[1..], id, x);
      assert s == [s[0]] + s[1..];
    }
  }

  /** Filtering with an id that no item carries changes nothing, and only then. */
  lemma {:induction false} WithoutAbsent(s: seq<FxItem>, id: string)
    ensures Without(s, id) == s <==> Absent(s, id)
  {
    if s != [] {
      WithoutAbsent(s[1..], id);
      if Absent(s, id) {
        assert Absent(s[1..], id) by {
          forall i | 0 <= i < |s[1..]| ensures s[1..][i].id != id {
            assert s[1..][i] == s[i + 1];
          }
        }
        assert s == [s[0]] + s[1..];
      }
    }
  }

  /** `finish(id)` twice leaves the same list as once. */
  lemma {:induction false} WithoutIdempotent(s: seq<FxItem>, id: string)
    ensures Without(Without(s, id), id) == Without(s, id)
  {
    WithoutAbsent(Without(s, id), id);
  }

  /** Finishing two ids gives the same list in either order. */
  lemma {:induction false} WithoutCommutes(s: seq<FxItem>, a: string, b: string)
    ensures Without(Without(s, a), b) == Without(Without(s, b), a)
  {
    if s != [] {
      WithoutCommutes(s[1..], a, b);
      if s[0].id != a && s[0].id != b {
        assert ([s[0]] + Without(s[1..], a))[1..] == Without(s[1..], a);
        assert ([s[0]] + Without(s[1..], b))[1..] == Without(s[1..], b);
      } else if s[0].id != a {
        assert ([s[0]] + Without(s[1..], a))[1..] == Without(s[1..], a);
      } else if s[0].id != b {
        assert ([s[0]] + Without(s[1..], b))[1..] == Without(s[1..], b);
      }
    }
  }

  /** Starting an effect under an id nobody else uses and then finishing it restores the list. */
  lemma {:induction false} FinishUndoesStart(s: seq<FxItem>, input: FxInput, id: string)
    requires Absent(s, id)
    ensures Without(s + [MakeItem(input, id)], id) == s
  {
    WithoutAppend(s, [MakeItem(input, id)], id);
    WithoutAbsent(s, id);
    assert [MakeItem(input, id)][1..] == [];
  }

  /** The store returned by `createFxStore`: its current list of effects. */
  class FxStore {
    var items: seq<FxItem>

    /** Every stored item has its duration filled in. */
    ghost predicate Valid()
      reads this
    {
      AllTimed(items)
    }

    /** `createFxStore()`: a store holding the empty list. */
    constructor ()
      ensures Valid() && items == []
    {
      items := [];
    }

    /**
     * `start(input)`: append the input under the fresh id `newId` (generated
     * by the caller's id source) and return that id.
     */
    method Start(input: FxInput, newId: string) returns (id: string)
      requires Valid()
      modifies this
      ensures Valid()
      ensures items == old(items) + [MakeItem(input, newId)]
      ensures id == newId && items[|items| - 1].id == id
    {
      id := newId;
      var item := MakeItem(input, id);
      items := items + [item];
    }

    /** `finish(id)`: drop every item carrying `id`, keeping the others in order. */
    method Finish(id: string)
      requires Valid()
      modifies this
      ensures Valid()
      ensures items == Without(old(items), id)
    {
      items := Without(items, id);
    }

    /** `clear()`: the store holds the empty list, whatever it held before. */
    method Clear()
      modifies this
      ensures Valid() && items == []
    {
      items := [];
    }
  }
}
