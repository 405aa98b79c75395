/** Short subagent ids: the shortest unambiguous prefix of at least eight
    characters, and the lookup that accepts it. */
module ShortIds {

  const SHORT_LENGTH: nat := 8

  datatype Resolution = Found(id: string) | TooShort | Ambiguous | Unknown

  function Matching(ids: seq<string>, prefix: string): (ms: seq<string>)
    ensures forall x :: x in ms <==> x in ids && prefix <= x
  {
    if ids == [] then []
    else
      var rest := Matching(ids[1..], prefix);
      assert ids == [ids[0]] + ids[1..];
      if prefix <= ids[0] then [ids[0]] + rest else rest
  }

  function ShortFrom(id: string, ids: seq<string>, n: nat): (r: string)
    ensures r <= id
    decreases |id| - n
  {
    if n >= |id| then id
    else if |Matching(ids, id[..n])| <= 1 then id[..n]
    else ShortFrom(id, ids, n + 1)
  }

  /** An exact id wins; otherwise a prefix must be long enough and fit exactly one id. */
  function Resolve(ids: seq<string>, given: string): Resolution {
    if given in ids then Found(given)
    else if |given| < SHORT_LENGTH then TooShort
    else
      var ms := Matching(ids, given);
      if |ms| == 1 then Found(ms[0]) else if |ms| > 1 then Ambiguous else Unknown
  }

  /** Two different ids with a common prefix make it ambiguous. */
  lemma TwoMatches(ms: seq<string>, a: string, b: string)
    requires a in ms && b in ms && a != b
    ensures |ms| >= 2
  {
  }

  /** What the search for a short form stops at. */
  lemma {:induction false} ShortFromStops(id: string, ids: seq<string>, n: nat)
    ensures var r := ShortFrom(id, ids, n);
      && (r == id || (|r| >= n && |Matching(ids, r)| <= 1))
      && forall k :: n <= k < |r| ==> |Matching(ids, id[..k])| > 1
    decreases |id| - n
  {
    if n < |id| && |Matching(ids, id[..n])| > 1 {
      ShortFromStops(id, ids, n + 1);
    }
  }

  /** The short form of an id resolves to that id. */
  lemma ShortIdRoundTrip(ids: seq<string>, id: string)
    requires id in ids
    ensures Resolve(ids, ShortFrom(id, ids, SHORT_LENGTH)) == Found(id)
  {
    var r := ShortFrom(id, ids, SHORT_LENGTH);
    ShortFromStops(id, ids, SHORT_LENGTH);
    assert id in Matching(ids, r);
    if r in ids && r != id {
      TwoMatches(Matching(ids, r), r, id);
      assert false;
    }
    if r != id {
      assert |Matching(ids, r)| == 1;
    }
  }

  /** No shorter prefix of an id resolves to it. */
  lemma ShortIdIsShortest(ids: seq<string>, id: string, n: nat)
    requires id in ids && n < |ShortFrom(id, ids, SHORT_LENGTH)|
    ensures Resolve(ids, id[..n]) != Found(id)
  {
    ShortFromStops(id, ids, SHORT_LENGTH);
    assert id[..n] != id;
    if n >= SHORT_LENGTH {
      assert |Matching(ids, id[..n])| > 1;
    }
  }

  /** The id is the only one with this prefix. */
  predicate OnlyOne(ids: seq<string>, prefix: string, id: string) {
    id in ids && prefix <= id && forall x :: x in ids && prefix <= x ==> x == id
  }

  predicate Several(ids: seq<string>, prefix: string) {
    exists a, b :: a in ids && b in ids && prefix <= a && prefix <= b && a != b
  }

  predicate Distinct(ids: seq<string>) {
    forall i, j :: 0 <= i < j < |ids| ==> ids[i] != ids[j]
  }

  lemma {:induction false} MatchesAreDistinct(ids: seq<string>, prefix: string)
    requires Distinct(ids)
    ensures Distinct(Matching(ids, prefix))
  {
    if ids != [] {
      var rest, ms := ids[1..], Matching(ids[1..], prefix);
      MatchesAreDistinct(rest, prefix);
      assert forall i :: 0 <= i < |rest| ==> rest[i] == ids[i + 1] != ids[0];
      assert forall j :: 0 <= j < |ms| ==> ms[j] in rest;
    }
  }

  /** What a lookup among different ids says, read off from the ids: an id itself, the
      only one with a prefix that is long enough, several, or none. */
  lemma ResolveIff(ids: seq<string>, given: string, id: string)
    requires Distinct(ids)
    ensures Resolve(ids, given) == Found(id) <==>
      if given in ids then id == given else |given| >= SHORT_LENGTH && OnlyOne(ids, given, id)
    ensures Resolve(ids, given) == TooShort <==> given !in ids && |given| < SHORT_LENGTH
    ensures Resolve(ids, given) == Ambiguous <==> given !in ids && |given| >= SHORT_LENGTH && Several(ids, given)
    ensures Resolve(ids, given) == Unknown <==> given !in ids && |given| >= SHORT_LENGTH && forall a :: a in ids ==> !(given <= a)
  {
    var ms := Matching(ids, given);
    MatchesAreDistinct(ids, given);
    if |ms| == 1 {
      assert ms[0] in ms;
      assert forall x :: x in ms ==> x == ms[0];
    } else if |ms| > 1 {
      assert ms[0] in ms && ms[1] in ms && ms[0] != ms[1];
    }
  }

  /** The search as a loop over lengths. */
  method ShortSubagentId(id: string, candidates: seq<string>) returns (r: string)
    ensures r == ShortFrom(id, candidates, SHORT_LENGTH)
  {
    var length := SHORT_LENGTH;
    while length < |id|
      invariant length >= SHORT_LENGTH
      invariant ShortFrom(id, candidates, SHORT_LENGTH) == ShortFrom(id, candidates, length)
    {
      var prefix := id[..length];
      var matches := Matching(candidates, prefix);
      if |matches| <= 1 {
        return prefix;
      }
      length := length + 1;
    }
    return id;
  }
}
