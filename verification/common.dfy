/** Shared vocabulary of the chat client model: nullable values and their fallbacks,
    the outcome of an HTTP call as seen by a view-model, and the list operations the
    view-models use (`IndexOf`, `FirstOrDefault`, `Remove`). */
module Common {

  /** A C# reference that may be null. */
  datatype Option<T> = None | Some(value: T)

  /** `!string.IsNullOrEmpty(s)`. */
  predicate NonEmpty(s: Option<string>)
  {
    s.Some? && s.value != ""
  }

  /** `!string.IsNullOrEmpty(s) ? s : fallback`: the value, or the fallback when it is
      null or empty. */
  function OrDefault(s: Option<string>, fallback: string): (v: string)
    ensures NonEmpty(s) ==> v == s.value
    ensures !NonEmpty(s) ==> v == fallback
  {
    if NonEmpty(s) then s.value else fallback
  }

  /** The outcome of one awaited HTTP call: a success status with its decoded body,
      a non-success status, or an exception thrown by the transport or the decoder. */
  datatype Reply<T> = Success(body: T) | NonSuccess(status: int) | Threw

  /** `IndexOf`: the position of the first occurrence of `x`, or |s| when absent. */
  function IndexOf<T(==)>(s: seq<T>, x: T): (i: nat)
    ensures i <= |s|
    ensures i < |s| ==> s[i] == x
    ensures forall k :: 0 <= k < i ==> s[k] != x
  {
    if s == [] then 0
    else if s[0] == x then 0
    else 1 + IndexOf(s[1..], x)
  }

  /** `FirstOrDefault(p)`, as a position: the first element satisfying `p`, or |s| when
      there is none. */
  function FirstWhere<T>(s: seq<T>, p: T -> bool): (i: nat)
    ensures i <= |s|
    ensures i < |s| ==> p(s[i])
    ensures forall k :: 0 <= k < i ==> !p(s[k])
  {
    if s == [] then 0
    else if p(s[0]) then 0
    else 1 + FirstWhere(s[1..], p)
  }

  /** `Remove`: drops the first occurrence of `x`, keeping the order of the rest;
      a list without `x` is returned as it is. */
  function RemoveFirst<T(==)>(s: seq<T>, x: T): (r: seq<T>)
    ensures x !in s ==> r == s
    ensures x in s ==> r == s[..IndexOf(s, x)] + s[IndexOf(s, x) + 1..]
  {
    if s == [] then []
    else if s[0] == x then s[1..]
    else
      assert s[1..][..IndexOf(s, x) - 1] == s[1..IndexOf(s, x)];
      [s[0]] + RemoveFirst(s[1..], x)
  }

  /** Removing a present element shortens the list by one and takes exactly one
      copy of that element out of it. */
  lemma {:induction false} RemoveFirstTakesOne<T>(s: seq<T>, x: T)
    requires x in s
    ensures |RemoveFirst(s, x)| == |s| - 1
    ensures multiset(RemoveFirst(s, x)) == multiset(s) - multiset{x}
  {
    var i := IndexOf(s, x);
    var front, back := s[..i], s[i + 1..];
    assert RemoveFirst(s, x) == front + back;
    assert s == front + [x] + back;
    assert multiset(s) == multiset(front) + multiset{x} + multiset(back);
    assert multiset(front + back) == multiset(front) + multiset(back);
  }
}
