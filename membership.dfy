/** A room's `members` field: a dictionary from display name to `True`
    whose only meaning is its set of keys, listed in insertion order
    (`list(members.keys())`, app.py:130-136 and 153-159). It is modelled as
    the sequence of its keys, which never holds a name twice. */
module Membership {

  type Name = string

  /** Dictionary keys are unique. */
  predicate NoDup(ms: seq<Name>) {
    ms == [] || (ms[0] !in ms[1..] && NoDup(ms[1..]))
  }

  /** Appending a name that is not yet a key keeps the keys distinct. */
  lemma {:induction false} NoDupAppend(ms: seq<Name>, n: Name)
    requires NoDup(ms) && n !in ms
    ensures NoDup(ms + [n])
  {
    if ms != [] {
      assert (ms + [n])[1..] == ms[1..] + [n];
      NoDupAppend(ms[1..], n);
    }
  }

  /** `members[name] = True`: a new key goes to the end, an existing key keeps its place. */
  function AddMember(ms: seq<Name>, n: Name): (r: seq<Name>)
    ensures n in r
    ensures forall x :: x in r <==> x in ms || x == n
    ensures |ms| <= |r| <= |ms| + 1 && r[..|ms|] == ms
    ensures NoDup(ms) ==> NoDup(r)
  {
    if n in ms then ms
    else
      assert NoDup(ms) ==> NoDup(ms + [n]) by {
        if NoDup(ms) { NoDupAppend(ms, n); }
      }
      ms + [n]
  }

  /** `del members[name]`: every other key stays, in its order. */
  function RemoveMember(ms: seq<Name>, n: Name): (r: seq<Name>)
    ensures forall x :: x in r <==> x in ms && x != n
    ensures n !in ms ==> r == ms
    ensures NoDup(ms) ==> NoDup(r)
    ensures NoDup(ms) && n in ms ==> |r| == |ms| - 1
  {
    if ms == [] then []
    else if ms[0] == n then RemoveMember(ms[1..], n)
    else
      var rest := RemoveMember(ms[1..], n);
      assert ([ms[0]] + rest)[1..] == rest;
      [ms[0]] + rest
  }

  /** Removing the key at position `i` closes the gap and keeps the other keys' order. */
  lemma {:induction false} RemoveAt(ms: seq<Name>, i: nat)
    requires NoDup(ms) && i < |ms|
    ensures RemoveMember(ms, ms[i]) == ms[..i] + ms[i + 1..]
  {
    var tail := ms[1..];
    if i == 0 {
      assert ms[0] !in tail;
      assert RemoveMember(ms, ms[0]) == RemoveMember(tail, ms[0]);
    } else {
      assert tail[i - 1] == ms[i];
      RemoveAt(tail, i - 1);
      KeepHead(ms, ms[i]);
      assert ms[..i] + ms[i + 1..] == [ms[0]] + (tail[..i - 1] + tail[i..]);
    }
  }

  /** A first key other than the removed name stays in front. */
  lemma KeepHead(ms: seq<Name>, n: Name)
    requires ms != [] && ms[0] != n
    ensures RemoveMember(ms, n) == [ms[0]] + RemoveMember(ms[1..], n)
  {
  }

  /** A name that joins and then leaves leaves the member list as it was. */
  lemma {:induction false} RemoveAfterAdd(ms: seq<Name>, n: Name)
    requires n !in ms
    ensures RemoveMember(AddMember(ms, n), n) == ms
  {
    assert AddMember(ms, n) == ms + [n];
    if ms == [] {
      assert RemoveMember([n], n) == RemoveMember([], n);
    } else {
      var tail := ms[1..];
      assert (ms + [n])[0] == ms[0] != n;
      assert (ms + [n])[1..] == tail + [n];
      RemoveAfterAdd(tail, n);
      assert RemoveMember(ms + [n], n) == [ms[0]] + RemoveMember(tail + [n], n);
      assert [ms[0]] + tail == ms;
    }
  }
}
