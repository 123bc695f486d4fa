/**
 The rolling retrieval budget of `src/artifacts/index.ts`: `#spendRetrieval` keeps a pruned list per
 consumer; the plain definition counts every admitted attempt of the last minute in the full history.
 */
module RetrievalBudget {
  import opened Common

  const RETRIEVAL_WINDOW_MS: int := 60_000
  const MAX_RETRIEVALS_PER_WINDOW: nat := 30

  /** How many entries are later than `from`. */
  function Later(h: seq<int>, from: int): nat {
    if h == [] then 0 else Later(h[..|h| - 1], from) + (if h[|h| - 1] > from then 1 else 0)
  }

  /** The plain definition: too many admitted attempts in the last window, over the whole history. */
  predicate Refused(history: seq<int>, now: int) {
    Later(history, now - RETRIEVAL_WINDOW_MS) >= MAX_RETRIEVALS_PER_WINDOW
  }

  predicate Sorted(h: seq<int>) { forall i, j | 0 <= i < j < |h| :: h[i] <= h[j] }

  /** Every attempt's instant in, every admitted attempt's instant out. */
  function Admitted(attempts: seq<int>): seq<int> {
    if attempts == [] then []
    else
      var h := Admitted(attempts[..|attempts| - 1]);
      var now := attempts[|attempts| - 1];
      if Refused(h, now) then h else h + [now]
  }

  lemma {:induction false} AllLater(h: seq<int>, from: int)
    requires forall i | 0 <= i < |h| :: h[i] > from
    ensures Later(h, from) == |h|
  {
    if h != [] { AllLater(h[..|h| - 1], from); }
  }

  /** Entries at or before the cutoff count for nothing, so a pruned prefix is not missed. */
  lemma {:induction false} PrefixUncounted(h: seq<int>, k: nat, from: int)
    requires k <= |h| && forall i | 0 <= i < k :: h[i] <= from
    ensures Later(h, from) == Later(h[k..], from)
    decreases |h|
  {
    if k == |h| {
      if h != [] {
        PrefixUncounted(h[..|h| - 1], k - 1, from);
        assert h[..|h| - 1][k - 1..] == [];
      }
    } else {
      PrefixUncounted(h[..|h| - 1], k, from);
      assert h[k..][..|h[k..]| - 1] == h[..|h| - 1][k..];
    }
  }

  /** How many entries fall in the window that ends, inclusively, at `t`. */
  function InWindow(h: seq<int>, t: int): nat {
    if h == [] then 0
    else InWindow(h[..|h| - 1], t) + (if t - RETRIEVAL_WINDOW_MS < h[|h| - 1] <= t then 1 else 0)
  }

  lemma {:induction false} WindowIsLater(h: seq<int>, t: int, from: int)
    requires from <= t - RETRIEVAL_WINDOW_MS
    ensures InWindow(h, t) <= Later(h, from)
  {
    if h != [] { WindowIsLater(h[..|h| - 1], t, from); }
  }

  /** What the limit is for: no window of a minute, wherever it is placed, holds more than the limit. */
  lemma {:induction false} RollingBound(attempts: seq<int>, t: int)
    requires Sorted(attempts)
    ensures InWindow(Admitted(attempts), t) <= MAX_RETRIEVALS_PER_WINDOW
    decreases |attempts|
  {
    if attempts != [] {
      var before := attempts[..|attempts| - 1];
      var now := attempts[|attempts| - 1];
      var h := Admitted(before);
      RollingBound(before, t);
      if !Refused(h, now) {
        assert (h + [now])[..|h|] == h;
        if now <= t { WindowIsLater(h, t, now - RETRIEVAL_WINDOW_MS); }
      }
    }
  }

  /** What is kept for one consumer: a suffix of its history whose missing part has left the window. */
  ghost predicate Keeps(list: seq<int>, history: seq<int>, clock: int) {
    && |list| <= |history| && list == history[|history| - |list|..]
    && (forall i | 0 <= i < |history| - |list| :: history[i] <= clock - RETRIEVAL_WINDOW_MS)
    && |list| <= MAX_RETRIEVALS_PER_WINDOW
    && Sorted(history) && (forall i | 0 <= i < |history| :: history[i] <= clock)
  }

  /** Pruning up to a later instant keeps exactly what the plain definition counts. */
  lemma PrunedCounts(list: seq<int>, history: seq<int>, clock: int, now: int, k: nat)
    requires Keeps(list, history, clock) && clock <= now && k <= |list|
    requires forall i | 0 <= i < k :: list[i] <= now - RETRIEVAL_WINDOW_MS
    requires k < |list| ==> list[k] > now - RETRIEVAL_WINDOW_MS
    ensures Keeps(list[k..], history, now) && Later(history, now - RETRIEVAL_WINDOW_MS) == |list| - k
  {
    var from := now - RETRIEVAL_WINDOW_MS;
    var cut := |history| - |list| + k;
    assert list[k..] == history[cut..];
    forall i | 0 <= i < cut ensures history[i] <= from {
      if i >= |history| - |list| { assert history[i] == list[i - (|history| - |list|)]; }
    }
    PrefixUncounted(history, cut, from);
    assert forall i | 0 <= i < |history[cut..]| :: history[cut..][i] > from;
    AllLater(history[cut..], from);
  }

  lemma RecordedKeeps(list: seq<int>, history: seq<int>, now: int)
    requires Keeps(list, history, now) && |list| < MAX_RETRIEVALS_PER_WINDOW
    ensures Keeps(list + [now], history + [now], now)
  {
    assert (history + [now])[|history| - |list|..] == list + [now];
  }

  /** The list of one consumer; an absent entry is an empty one. */
  function Of(m: map<Consumer, seq<int>>, c: Consumer): seq<int> { if c in m then m[c] else [] }

  ghost predicate AllKept(lists: map<Consumer, seq<int>>, histories: map<Consumer, seq<int>>, clock: int) {
    forall c: Consumer :: Keeps(Of(lists, c), Of(histories, c), clock)
  }

  lemma LaterKeeps(lists: map<Consumer, seq<int>>, histories: map<Consumer, seq<int>>, clock: int, now: int,
                   c: Consumer, list: seq<int>, history: seq<int>)
    requires AllKept(lists, histories, clock) && clock <= now && Keeps(list, history, now)
    ensures AllKept(lists[c := list], histories[c := history], now)
  {
    var lists' := lists[c := list];
    var histories' := histories[c := history];
    forall k: Consumer ensures Keeps(Of(lists', k), Of(histories', k), now) {
      assert Keeps(Of(lists, k), Of(histories, k), clock);
    }
  }

  class Budget {
    var retrievals: map<Consumer, seq<int>>
    ghost var history: map<Consumer, seq<int>>
    ghost var clock: int

    ghost predicate Valid()
      reads this
    {
      AllKept(retrievals, history, clock)
    }

    constructor (now: int)
      ensures Valid() && clock == now && history == map[]
    {
      retrievals, history, clock := map[], map[], now;
    }

    /**
     Spend one attempt. It is refused exactly when the plain definition over the full history refuses it,
     and a refused attempt is not recorded, so it never extends the window.
     */
    method SpendRetrieval(c: Consumer, now: int) returns (refused: bool)
      requires Valid() && clock <= now
      modifies this
      ensures Valid() && clock == now
      ensures refused == Refused(Of(old(history), c), now)
      ensures history == old(history)[c := if refused then Of(old(history), c) else Of(old(history), c) + [now]]
      ensures forall k: Consumer | k != c :: Of(retrievals, k) == Of(old(retrievals), k)
    {
      hide Keeps, AllKept, Refused, Later;
      var attempts := Pruned(c, now);
      if |attempts| >= MAX_RETRIEVALS_PER_WINDOW {
        Record(c, now, attempts, Of(history, c));
        refused := true;
      } else {
        RecordedKeeps(attempts, Of(history, c), now);
        Record(c, now, attempts + [now], Of(history, c) + [now]);
        refused := false;
      }
    }

    /** Instants leave the window exactly one minute after they were spent. */
    method Pruned(c: Consumer, now: int) returns (attempts: seq<int>)
      requires Valid() && clock <= now
      ensures Keeps(attempts, Of(history, c), now)
      ensures |attempts| >= MAX_RETRIEVALS_PER_WINDOW <==> Refused(Of(history, c), now)
    {
      attempts := if c in retrievals then retrievals[c] else [];
      ghost var list, k := attempts, 0;
      assert Keeps(list, Of(history, c), clock);
      while |attempts| > 0 && attempts[0] <= now - RETRIEVAL_WINDOW_MS
        invariant 0 <= k <= |list| && attempts == list[k..]
        invariant forall i | 0 <= i < k :: list[i] <= now - RETRIEVAL_WINDOW_MS
      {
        attempts := attempts[1..];
        k := k + 1;
      }
      PrunedCounts(list, Of(history, c), clock, now, k);
    }

    method Record(c: Consumer, now: int, attempts: seq<int>, ghost h: seq<int>)
      requires Valid() && clock <= now && Keeps(attempts, h, now)
      modifies this
      ensures Valid() && clock == now
      ensures retrievals == old(retrievals)[c := attempts] && history == old(history)[c := h]
    {
      hide Keeps, AllKept;
      LaterKeeps(retrievals, history, clock, now, c, attempts, h);
      retrievals, history, clock := retrievals[c := attempts], history[c := h], now;
    }
  }
}
