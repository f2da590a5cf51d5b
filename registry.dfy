/** The `users` dictionary of the signalling server, seen through `Object.keys`.

    Every key of `users` is mapped to itself, so the dictionary is fully
    described by its key sequence in enumeration order.  For the keys this
    server stores (socket ids and `simulated-…` ids, none of which is an
    array index) `Object.keys` enumerates in insertion order: assigning to
    a present key keeps its place, deleting a key and assigning it again
    moves it to the end.
 */
module Registry {

  datatype Option<T> = None | Some(value: T)

  /** No key occurs twice: a dictionary has each key at most once. */
  predicate NoDup(keys: seq<string>)
  {
    forall i, j :: 0 <= i < j < |keys| ==> keys[i] != keys[j]
  }

  /** `users[k] = k`: a new key goes to the end, a present key stays where it is. */
  function Put(keys: seq<string>, k: string): (r: seq<string>)
    ensures k in r
    ensures forall x :: x in r <==> x in keys || x == k
    ensures |keys| <= |r| <= |keys| + 1 && r[..|keys|] == keys
    ensures k in keys ==> r == keys
    ensures k !in keys ==> r[|keys|] == k
    ensures NoDup(keys) ==> NoDup(r)
  {
    if k in keys then keys else keys + [k]
  }

  /** `delete users[k]`: drops `k` and keeps every other key in its order. */
  function Remove(keys: seq<string>, k: string): (r: seq<string>)
    ensures forall x :: x in r <==> x in keys && x != k
    ensures |r| <= |keys|
    ensures k !in keys ==> r == keys
    ensures NoDup(keys) ==> NoDup(r)
  {
    if keys == [] then []
    else if keys[0] == k then
      assert NoDup(keys) ==> NoDup(keys[1..]);
      Remove(keys[1..], k)
    else
      var rest := Remove(keys[1..], k);
      assert NoDup(keys) ==> NoDup(keys[1..]);
      assert NoDup(keys) ==> keys[0] !in keys[1..];
      [keys[0]] + rest
  }

  /** `Object.keys(users).find(id => id !== p)`: the first key, in enumeration
      order, that differs from `p`, or `None` (JavaScript's `undefined`) when there
      is none. */
  function FirstOther(keys: seq<string>, p: string): (r: Option<string>)
    ensures r.None? <==> forall x :: x in keys ==> x == p
    ensures r.Some? ==> r.value in keys && r.value != p
  {
    if keys == [] then None
    else if keys[0] != p then
      assert keys[0] in keys;
      Some(keys[0])
    else
      assert forall x :: x in keys <==> x == keys[0] || x in keys[1..];
      FirstOther(keys[1..], p)
  }

  /** The partner `find` returns is the key at the first position `i` whose key
      is not `p`: every key before it is `p` itself. */
  lemma {:induction false} FirstOtherIsEarliest(keys: seq<string>, p: string, i: nat)
    requires i < |keys| && keys[i] != p
    requires forall j :: 0 <= j < i ==> keys[j] == p
    ensures FirstOther(keys, p) == Some(keys[i])
  {
    if i > 0 {
      FirstOtherIsEarliest(keys[1..], p, i - 1);
    }
  }

  /** Deleting one key of a duplicate-free key sequence closes the gap and keeps
      the keys before and after it in place. */
  lemma {:induction false} RemoveKeepsOrder(before: seq<string>, k: string, after: seq<string>)
    requires k !in before && k !in after
    ensures Remove(before + [k] + after, k) == before + after
  {
    if before == [] {
      assert (before + [k] + after)[1..] == after;
    } else {
      assert (before + [k] + after)[1..] == before[1..] + [k] + after;
      RemoveKeepsOrder(before[1..], k, after);
      assert before == [before[0]] + before[1..];
    }
  }

  /** Adding a new key and deleting it again gives back the original keys. */
  lemma {:induction false} RemoveUndoesPut(keys: seq<string>, k: string)
    requires k !in keys
    ensures Remove(Put(keys, k), k) == keys
  {
    RemoveKeepsOrder(keys, k, []);
    assert keys + [k] + [] == keys + [k];
    assert keys + [] == keys;
  }

  /** Deleting a key and adding it again moves it to the end of the enumeration. */
  lemma RejoinMovesToEnd(keys: seq<string>, k: string)
    ensures Put(Remove(keys, k), k) == Remove(keys, k) + [k]
  {
  }

  /** A key that is not in the dictionary is never chosen as anyone's partner,
      whoever joins next: the joiner is added first and is itself excluded. */
  lemma AbsentNeverPartner(keys: seq<string>, s: string, p: string)
    requires s !in keys
    ensures FirstOther(Put(keys, p), p) != Some(s)
  {
  }

  /** There is no two-party room: the earliest key is the partner of every other
      id that joins after it, however many of them there are. */
  lemma {:induction false} EarliestPartnersEveryone(keys: seq<string>, p: string)
    requires keys != [] && keys[0] != p
    ensures FirstOther(Put(keys, p), p) == Some(keys[0])
  {
    FirstOtherIsEarliest(Put(keys, p), p, 0);
  }
}
