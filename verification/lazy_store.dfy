/** The store both contracts share: a map from an owner key to that owner's collection of
    records, in insertion order. A collection is created lazily the first time an owner
    appends, grows only at its end, and disappears only when it is removed as a whole. */
module LazyStore {

  /** An owner key: an account id. */
  type Owner = string

  /** Every owner that has a collection, mapped to its records in insertion order. */
  type Store<R> = map<Owner, seq<R>>

  /** `s` and `t` agree on every owner except possibly `owner`: the same owners are present
      and each has the same collection. */
  ghost predicate OnlyOwnerChanged<R>(s: Store<R>, t: Store<R>, owner: Owner) {
    s - {owner} == t - {owner}
  }

  /** Reading a collection: the stored records, or none when the owner has no entry. */
  function List<R>(s: Store<R>, owner: Owner): seq<R> {
    if owner in s then s[owner] else []
  }

  /** The get-or-create step: insert an empty collection for an owner that has none. */
  function Ensure<R>(s: Store<R>, owner: Owner): (t: Store<R>)
    ensures owner in t && t[owner] == List(s, owner)
    ensures t.Keys == s.Keys + {owner}
    ensures owner in s ==> t == s
    ensures OnlyOwnerChanged(s, t, owner)
  {
    if owner in s then s else s[owner := []]
  }

  /** Pushing one record onto an existing collection and writing it back. */
  function Push<R>(s: Store<R>, owner: Owner, rec: R): (t: Store<R>)
    requires owner in s
    ensures t.Keys == s.Keys
    ensures OnlyOwnerChanged(s, t, owner)
    ensures |t[owner]| == |s[owner]| + 1
    ensures t[owner][..|s[owner]|] == s[owner] && t[owner][|s[owner]|] == rec
  {
    s[owner := s[owner] + [rec]]
  }

  /** Ensure-then-push: what one append does, whether or not the owner had a collection. */
  function Append<R>(s: Store<R>, owner: Owner, rec: R): (t: Store<R>)
    ensures owner in t && t.Keys == s.Keys + {owner}
    ensures List(t, owner) == List(s, owner) + [rec]
    ensures OnlyOwnerChanged(s, t, owner)
  {
    var e := Ensure(s, owner);
    var t := Push(e, owner, rec);
    assert t[owner] == e[owner] + [rec] by {
      assert t[owner] == t[owner][..|e[owner]|] + [t[owner][|e[owner]|]];
    }
    t
  }

  /** Dropping an owner's whole collection; an owner without one is left as it is. */
  function Remove<R>(s: Store<R>, owner: Owner): (t: Store<R>)
    ensures owner !in t && List(t, owner) == []
    ensures t.Keys == s.Keys - {owner}
    ensures owner !in s ==> t == s
    ensures OnlyOwnerChanged(s, t, owner)
  {
    s - {owner}
  }

  /** Another owner reads the same collection before and after a change confined to `owner`. */
  lemma OtherOwnerUnaffected<R>(s: Store<R>, t: Store<R>, owner: Owner, other: Owner)
    requires OnlyOwnerChanged(s, t, owner)
    requires other != owner
    ensures List(t, other) == List(s, other)
  {
    assert other in s <==> other in s - {owner};
    assert other in t <==> other in t - {owner};
    if other in s {
      assert s[other] == (s - {owner})[other];
      assert t[other] == (t - {owner})[other];
    }
  }
}
