/** Types shared by every slice: optional values, request statuses, and the shapes in which a
    remote call and a thunk settle. */
module Common {

  datatype Option<+T> = None | Some(value: T)

  /** `RequestStatus` of the app slice, also the per-row `entityStatus` of a todolist. */
  datatype RequestStatus = Idle | Loading | Succeeded | Failed

  /** The answer of a remote call that reports a result code: success with its data, an
      application-level failure (result code other than Success) carrying the server's
      messages, or a thrown transport error. */
  datatype Outcome<+T> = Success(payload: T) | AppFailure(messages: seq<string>) | NetworkFailure(message: string)

  /** The answer of a remote call whose result code the client never inspects (the two list
      fetches): either the data arrived, or the call threw. */
  datatype Response<+T> = Received(data: T) | Thrown(message: string)

  /** How a thunk settles: fulfilled with its payload, or rejected with the value `null`. */
  datatype Settled<+T> = Fulfilled(payload: T) | Rejected
}

/** The array operations the reducers use on their drafts, as functions on sequences:
    `findIndex` and `find` by id, and `splice(index, 1)` of the entry found. */
module ArrayOps {
  import opened Common

  /** `j` is the position `findIndex(e => key(e) === id)` answers: the first entry with that key. */
  ghost predicate IsFirstMatch<T>(s: seq<T>, key: T -> string, id: string, j: int)
  {
    0 <= j < |s| && key(s[j]) == id && forall k :: 0 <= k < j ==> key(s[k]) != id
  }

  /** No entry of `s` has key `id`. */
  ghost predicate NoMatch<T>(s: seq<T>, key: T -> string, id: string)
  {
    forall j :: 0 <= j < |s| ==> key(s[j]) != id
  }

  /** `Array.prototype.findIndex` with an id test: the first index whose key is `id`, or -1. */
  function FindIndex<T>(s: seq<T>, key: T -> string, id: string): (r: int)
    ensures -1 <= r < |s|
    ensures r >= 0 ==> IsFirstMatch(s, key, id, r)
    ensures r < 0 ==> NoMatch(s, key, id)
    decreases |s|
  {
    if s == [] then -1
    else if key(s[0]) == id then 0
    else
      var k := FindIndex(s[1..], key, id);
      if k < 0 then -1 else k + 1
  }

  /** There is at most one first match. */
  lemma FirstMatchUnique<T>(s: seq<T>, key: T -> string, id: string, i: int, j: int)
    requires IsFirstMatch(s, key, id, i) && IsFirstMatch(s, key, id, j)
    ensures i == j
  {
  }

  /** `FindIndex` finds the first match whenever there is one. */
  lemma FindIndexIsFirstMatch<T>(s: seq<T>, key: T -> string, id: string, i: int)
    requires IsFirstMatch(s, key, id, i)
    ensures FindIndex(s, key, id) == i
  {
    var r := FindIndex(s, key, id);
    if r >= 0 {
      FirstMatchUnique(s, key, id, r, i);
    }
  }

  /** Once `FindIndex` answered `i`, position `i` is the only first match. */
  lemma FoundIsOnlyFirstMatch<T>(s: seq<T>, key: T -> string, id: string, i: int)
    requires 0 <= i && i == FindIndex(s, key, id)
    ensures forall j :: IsFirstMatch(s, key, id, j) <==> j == i
  {
    forall j | IsFirstMatch(s, key, id, j) ensures j == i {
      FirstMatchUnique(s, key, id, j, i);
    }
  }

  /** `Array.prototype.find` with an id test: the first entry whose key is `id`, if any. */
  function Find<T>(s: seq<T>, key: T -> string, id: string): (r: Option<T>)
    ensures r == None <==> NoMatch(s, key, id)
    ensures forall i :: IsFirstMatch(s, key, id, i) ==> r == Some(s[i])
  {
    var i := FindIndex(s, key, id);
    if i < 0 then None
    else
      FoundIsOnlyFirstMatch(s, key, id, i);
      Some(s[i])
  }

  /** `findIndex` looks only at keys: two sequences with the same key at every position give the
      same answer. */
  lemma FindIndexSameKeys<T>(s: seq<T>, t: seq<T>, key: T -> string, id: string)
    requires |s| == |t|
    requires forall j :: 0 <= j < |s| ==> key(s[j]) == key(t[j])
    ensures FindIndex(s, key, id) == FindIndex(t, key, id)
  {
    var i := FindIndex(s, key, id);
    if i >= 0 {
      assert IsFirstMatch(t, key, id, i) by {
        forall k | 0 <= k < i ensures key(t[k]) != id {
          assert key(s[k]) != id;
        }
      }
      FindIndexIsFirstMatch(t, key, id, i);
    } else {
      assert NoMatch(t, key, id) by {
        forall j | 0 <= j < |t| ensures key(t[j]) != id {
          assert key(s[j]) != id;
        }
      }
    }
  }

  /** `index = findIndex(e => key(e) === id); if (index !== -1) draft.splice(index, 1)`:
      removes the first entry with key `id` and keeps the order of the rest. */
  function RemoveFirst<T>(s: seq<T>, key: T -> string, id: string): (r: seq<T>)
    ensures NoMatch(s, key, id) ==> r == s
    ensures forall i :: IsFirstMatch(s, key, id, i) ==>
      && |r| == |s| - 1
      && (forall j :: 0 <= j < i ==> r[j] == s[j])
      && (forall j :: i <= j < |r| ==> r[j] == s[j + 1])
  {
    var i := FindIndex(s, key, id);
    if i < 0 then s
    else
      var r := s[..i] + s[i + 1..];
      assert forall k :: IsFirstMatch(s, key, id, k) ==> k == i by {
        forall k | IsFirstMatch(s, key, id, k) ensures k == i {
          FirstMatchUnique(s, key, id, k, i);
        }
      }
      r
  }
}
