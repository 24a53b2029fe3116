/**
 * The command line's token resolver: user tokens that are raw entity IDs or
 * `i<digit>` indices into the last listing become existing entity IDs.
 */
module CliInput {
  import opened Entities

  /** The resolver's result: the IDs found, or the IndexError Python raises. */
  datatype Outcome = Ids(ids: seq<Id>) | IndexError

  /**
   * Everything besides the tokens: the known IDs, the listing that `i<n>`
   * indexes into (each entry the `id` of an entity, or None), the optional
   * limit, the early-return mode, and the two digit helpers, `isNumber` and
   * `int(float(...))`, applied to a token's second character.
   */
  datatype Inputs = Inputs(
    existingIds: seq<Id>,
    indexList: seq<Option<Id>>,
    limit: Option<int>,
    returnOnNonIds: bool,
    isNumber: char -> bool,
    indexOf: char -> int)

  /** What one token yields: an ID, an unrecognised token, or an IndexError. */
  datatype Verdict = Take(id: Id) | Reject | Fail

  /** Python's `xs[n]`: negative positions count from the end; anything else out of range raises. */
  function PyIndex<T>(xs: seq<T>, n: int): (r: Option<T>)
    ensures r.Some? <==> -|xs| <= n < |xs|
    ensures 0 <= n < |xs| ==> r == Some(xs[n])
  {
    if 0 <= n < |xs| then Some(xs[n])
    else if -|xs| <= n < 0 then Some(xs[n + |xs|])
    else None
  }

  /**
   * One token: one starting with `i` is an index whatever follows and only
   * its second character is read; any other token is kept when it is a
   * known ID. Reading a character the token does not have, or an index
   * past the listing, raises.
   */
  function Classify(token: string, inp: Inputs): Verdict {
    if |token| == 0 then Fail
    else if token[0] == 'i' then
      if |token| < 2 then Fail
      else if !inp.isNumber(token[1]) then Reject
      else
        match PyIndex(inp.indexList, inp.indexOf(token[1]))
        case None => Fail
        case Some(entry) => if entry.Some? then Take(entry.value) else Reject
    else if token in inp.existingIds then Take(token)
    else Reject
  }

  /** How many tokens the loop may look at before the limit stops it. */
  function Examined(tokens: seq<string>, inp: Inputs): (n: nat)
    ensures n <= |tokens|
  {
    if inp.limit.None? || inp.limit.value >= |tokens| then |tokens|
    else if inp.limit.value <= 0 then 0
    else inp.limit.value
  }

  function Prepend(id: Id, o: Outcome): Outcome {
    if o.Ids? then Ids([id] + o.ids) else o
  }

  /**
   * The loop from token `k` on: stop at the limit, raise on a malformed
   * token, keep a found ID, and at an unrecognised token either return
   * (early-return mode) or go on.
   */
  function ResolveFrom(tokens: seq<string>, k: nat, inp: Inputs): Outcome
    decreases |tokens| - k
  {
    if k >= |tokens| || (inp.limit.Some? && k >= inp.limit.value) then Ids([])
    else
      match Classify(tokens[k], inp)
      case Fail => IndexError
      case Take(id) => Prepend(id, ResolveFrom(tokens, k + 1, inp))
      case Reject => if inp.returnOnNonIds then Ids([]) else ResolveFrom(tokens, k + 1, inp)
  }

  /** `getIdsFromInput`: nothing when there are no known IDs or no listing, else the loop. */
  function Resolve(tokens: seq<string>, inp: Inputs): Outcome {
    if |inp.existingIds| == 0 || |inp.indexList| == 0 then Ids([]) else ResolveFrom(tokens, 0, inp)
  }

  /** The branches of the loop body for one token. */
  method ResolveToken(token: string, inp: Inputs) returns (v: Verdict)
    ensures v == Classify(token, inp)
  {
    if |token| == 0 {
      return Fail;
    }
    if token[0] == 'i' {
      if |token| < 2 {
        return Fail;
      }
      if !inp.isNumber(token[1]) {
        return Reject;
      }
      var index := inp.indexOf(token[1]);
      var entry := PyIndex(inp.indexList, index);
      if entry.None? {
        return Fail;
      }
      if entry.value.Some? {
        v := Take(entry.value.value);
      } else {
        v := Reject;
      }
    } else if token in inp.existingIds {
      v := Take(token);
    } else {
      v := Reject;
    }
  }

  function Continue(acc: seq<Id>, o: Outcome): Outcome {
    if o.Ids? then Ids(acc + o.ids) else o
  }

  lemma ContinueTake(acc: seq<Id>, id: Id, o: Outcome)
    ensures Continue(acc, Prepend(id, o)) == Continue(acc + [id], o)
  {
    if o.Ids? {
      assert acc + ([id] + o.ids) == (acc + [id]) + o.ids;
    }
  }

  /** `getIdsFromInput` as the loop it is. */
  method GetIdsFromInput(tokens: seq<string>, inp: Inputs) returns (r: Outcome)
    ensures r == Resolve(tokens, inp)
  {
    if |inp.existingIds| == 0 || |inp.indexList| == 0 {
      return Ids([]);
    }
    var result: seq<Id> := [];
    var i := 0;
    while i < |tokens|
      invariant 0 <= i <= |tokens|
      invariant Continue(result, ResolveFrom(tokens, i, inp)) == ResolveFrom(tokens, 0, inp)
    {
      if inp.limit.Some? && i >= inp.limit.value {
        break;
      }
      var v := ResolveToken(tokens[i], inp);
      if v.Fail? {
        return IndexError;
      }
      if v.Reject? {
        if inp.returnOnNonIds {
          return Ids(result);
        }
        i := i + 1;
        continue;
      }
      ContinueTake(result, v.id, ResolveFrom(tokens, i + 1, inp));
      result := result + [v.id];
      i := i + 1;
    }
    r := Ids(result);
  }

  // ----- properties -----

  /** The IDs the given tokens yield, in token order, unrecognised ones skipped. */
  function Taken(ts: seq<string>, inp: Inputs): seq<Id> {
    if ts == [] then []
    else
      var v := Classify(ts[0], inp);
      (if v.Take? then [v.id] else []) + Taken(ts[1..], inp)
  }

  /** A known ID or the `id` of a listed entity: the only IDs a token can yield. */
  predicate Known(id: Id, inp: Inputs) {
    id in inp.existingIds || Some(id) in inp.indexList
  }

  lemma ClassifyKnown(token: string, inp: Inputs)
    ensures Classify(token, inp).Take? ==> Known(Classify(token, inp).id, inp)
    ensures Classify(token, inp).Take? && (|token| == 0 || token[0] != 'i') ==> Classify(token, inp).id == token
  {
    if |token| > 0 && token[0] == 'i' && |token| >= 2 && inp.isNumber(token[1]) {
      var n := inp.indexOf(token[1]);
      if -|inp.indexList| <= n < |inp.indexList| {
        var j := if n < 0 then n + |inp.indexList| else n;
        assert inp.indexList[j] in inp.indexList;
      }
    }
  }

  /** Every ID taken is known, and there are never more IDs than tokens. */
  lemma {:induction false} TakenKnown(ts: seq<string>, inp: Inputs)
    ensures |Taken(ts, inp)| <= |ts|
    ensures forall id :: id in Taken(ts, inp) ==> Known(id, inp)
  {
    if ts != [] {
      TakenKnown(ts[1..], inp);
      ClassifyKnown(ts[0], inp);
    }
  }

  /**
   * Without early return, the loop skips unrecognised tokens and goes on:
   * unless it raises, it yields exactly the IDs of the examined tokens.
   */
  lemma {:induction false} SkipMode(tokens: seq<string>, k: nat, inp: Inputs)
    requires !inp.returnOnNonIds && k <= Examined(tokens, inp)
    ensures ResolveFrom(tokens, k, inp).Ids? ==>
      ResolveFrom(tokens, k, inp).ids == Taken(tokens[k..Examined(tokens, inp)], inp)
    decreases |tokens| - k
  {
    var n := Examined(tokens, inp);
    if k < n {
      assert tokens[k..n][1..] == tokens[k + 1..n];
      SkipMode(tokens, k + 1, inp);
    }
  }

  /**
   * With early return, the loop stops at the first unrecognised token:
   * unless it raises, it yields the IDs of the tokens before that one
   * (within the limit), each of which yielded one.
   */
  lemma {:induction false} StopMode(tokens: seq<string>, k: nat, inp: Inputs)
    requires inp.returnOnNonIds && k <= Examined(tokens, inp)
    ensures ResolveFrom(tokens, k, inp).Ids? ==>
      exists j :: k <= j <= Examined(tokens, inp)
        && ResolveFrom(tokens, k, inp).ids == Taken(tokens[k..j], inp)
        && (forall m :: k <= m < j ==> Classify(tokens[m], inp).Take?)
        && (j < Examined(tokens, inp) ==> Classify(tokens[j], inp).Reject?)
    decreases |tokens| - k
  {
    var n := Examined(tokens, inp);
    if k == n {
      assert tokens[k..k] == [];
      assert ResolveFrom(tokens, k, inp) == Ids([]);
    } else if Classify(tokens[k], inp).Reject? {
      assert tokens[k..k] == [];
    } else if Classify(tokens[k], inp).Take? && ResolveFrom(tokens, k + 1, inp).Ids? {
      StopMode(tokens, k + 1, inp);
      var j :| k + 1 <= j <= n
        && ResolveFrom(tokens, k + 1, inp).ids == Taken(tokens[k + 1..j], inp)
        && (forall m :: k + 1 <= m < j ==> Classify(tokens[m], inp).Take?)
        && (j < n ==> Classify(tokens[j], inp).Reject?);
      assert tokens[k..j][1..] == tokens[k + 1..j];
    }
  }

  /**
   * The result: known IDs only, in token order, never more than the
   * tokens the limit lets the loop examine, and nothing when there are no
   * known IDs or no listing.
   */
  lemma ResolveBounds(tokens: seq<string>, inp: Inputs)
    ensures |inp.existingIds| == 0 || |inp.indexList| == 0 ==> Resolve(tokens, inp) == Ids([])
    ensures Resolve(tokens, inp).Ids? ==>
      && |Resolve(tokens, inp).ids| <= Examined(tokens, inp)
      && forall id :: id in Resolve(tokens, inp).ids ==> Known(id, inp)
  {
    var n := Examined(tokens, inp);
    if |inp.existingIds| > 0 && |inp.indexList| > 0 && ResolveFrom(tokens, 0, inp).Ids? {
      if inp.returnOnNonIds {
        StopMode(tokens, 0, inp);
        var j :| 0 <= j <= n && ResolveFrom(tokens, 0, inp).ids == Taken(tokens[0..j], inp);
        TakenKnown(tokens[0..j], inp);
      } else {
        SkipMode(tokens, 0, inp);
        TakenKnown(tokens[0..n], inp);
      }
    }
  }

  /** Tokens past the limit are never looked at: they cannot change the result. */
  lemma {:induction false} LimitIgnoresRest(tokens: seq<string>, more: seq<string>, k: nat, inp: Inputs)
    requires inp.limit.Some? && |tokens| >= inp.limit.value
    ensures ResolveFrom(tokens + more, k, inp) == ResolveFrom(tokens, k, inp)
    decreases |tokens| - k
  {
    if k < |tokens| && k < inp.limit.value {
      assert (tokens + more)[k] == tokens[k];
      LimitIgnoresRest(tokens, more, k + 1, inp);
    }
  }

  /**
   * A token starting with `i` is read as an index from its second character
   * alone: the rest of it, and whether it happens to be a known ID, make no
   * difference.
   */
  lemma IndexTokenReadsOneDigit(token: string, inp: Inputs, otherIds: seq<Id>)
    requires |token| >= 2 && token[0] == 'i'
    ensures Classify(token, inp) == Classify(token[..2], inp.(existingIds := otherIds))
  {
  }

  /**
   * Well-formed tokens never raise: each non-empty, and each index token
   * with a second character whose index, when it is a number, lies within
   * the listing (counting negative indices from the end).
   */
  lemma {:induction false} WellFormedNeverRaises(tokens: seq<string>, k: nat, inp: Inputs)
    requires forall m :: 0 <= m < |tokens| ==> |tokens[m]| > 0
    requires forall m :: 0 <= m < |tokens| && tokens[m][0] == 'i' ==>
      |tokens[m]| >= 2 && (inp.isNumber(tokens[m][1]) ==>
        -|inp.indexList| <= inp.indexOf(tokens[m][1]) < |inp.indexList|)
    ensures ResolveFrom(tokens, k, inp).Ids?
    decreases |tokens| - k
  {
    if k < |tokens| {
      WellFormedNeverRaises(tokens, k + 1, inp);
    }
  }

  /**
   * A token of `i` alone raises, as Python's `_string[1]` does, even after
   * IDs were found.
   */
  lemma BareIndexRaises(id: Id, inp: Inputs)
    requires id in inp.existingIds && |inp.indexList| > 0 && inp.limit.None?
    requires |id| > 0 && id[0] != 'i'
    ensures Resolve([id, "i"], inp) == IndexError
  {
    assert Classify(id, inp) == Take(id);
    assert Classify("i", inp) == Fail;
    assert ResolveFrom([id, "i"], 1, inp) == IndexError;
  }
}
