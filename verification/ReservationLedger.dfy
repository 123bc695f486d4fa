/**
 The capacity ledger of `src/artifacts/store.ts`: count, bytes, per-consumer tallies and stage permits,
 moved only by `#reserve`, `#shrinkReservation`, `#releaseStage` and `#releaseReservation`.

 A reservation is an object with identity in the source; here it is a token into `objects`, so that a
 stale holder and a replacement for the same id are different tokens.
 */
module ReservationLedger {
  import opened Common
  import opened Sums

  // Opaque identifiers: the code only ever compares them.
  type Id = nat
  type Token = nat

  const MAX_ARTIFACT_BYTES: nat := 8 * 1024 * 1024
  const MAX_STAGE_COPIES: nat := 2

  datatype Limits = Limits(maxBytes: nat, maxCount: nat, perConsumerBytes: nat, perConsumerCount: nat)

  datatype Reservation = Reservation(id: Id, consumer: Consumer, bytes: nat, staging: bool, released: bool)

  datatype Tally = Tally(count: int, bytes: int)

  /** `objects` holds every reservation ever made; `live` is the source's `#reservations` map. */
  datatype Ledger = Ledger(
    limits: Limits,
    objects: map<Token, Reservation>,
    live: map<Id, Token>,
    count: int,
    bytes: int,
    stagePermits: int,
    consumers: map<Consumer, Tally>)

  function Empty(limits: Limits): Ledger {
    Ledger(limits, map[], map[], 0, 0, 0, map[])
  }

  function TallyOf(l: Ledger, c: Consumer): Tally {
    if c in l.consumers then l.consumers[c] else Tally(0, 0)
  }

  predicate Admits(l: Ledger, id: Id, c: Consumer) {
    && id !in l.live
    && l.stagePermits < MAX_STAGE_COPIES
    && l.count + 1 <= l.limits.maxCount
    && TallyOf(l, c).count + 1 <= l.limits.perConsumerCount
    && l.bytes + MAX_ARTIFACT_BYTES <= l.limits.maxBytes
    && TallyOf(l, c).bytes + MAX_ARTIFACT_BYTES <= l.limits.perConsumerBytes
  }

  /** Claim count, worst-case bytes and a stage permit in one step. */
  function Claimed(l: Ledger, token: Token, id: Id, c: Consumer): Ledger {
    var t := TallyOf(l, c);
    l.(objects := l.objects[token := Reservation(id, c, MAX_ARTIFACT_BYTES, true, false)],
       live := l.live[id := token],
       count := l.count + 1,
       bytes := l.bytes + MAX_ARTIFACT_BYTES,
       stagePermits := l.stagePermits + 1,
       consumers := l.consumers[c := Tally(t.count + 1, t.bytes + MAX_ARTIFACT_BYTES)])
  }

  /** Claim, or refuse and touch nothing. */
  function Reserve(l: Ledger, token: Token, id: Id, c: Consumer): Ledger {
    if Admits(l, id, c) then Claimed(l, token, id, c) else l
  }

  /** Hand back the unused part of a live reservation. */
  function Shrink(l: Ledger, token: Token, bytes: nat): Ledger
    requires token in l.objects
  {
    var r := l.objects[token];
    if r.released || bytes >= r.bytes then l
    else
      var freed := r.bytes - bytes;
      var l1 := l.(objects := l.objects[token := r.(bytes := bytes)], bytes := l.bytes - freed);
      if r.consumer in l.consumers
      then l1.(consumers := l.consumers[r.consumer := Tally(l.consumers[r.consumer].count, l.consumers[r.consumer].bytes - freed)])
      else l1
  }

  /** The copy body has exited: its stage permit goes back, its capacity does not. */
  function ReleaseStage(l: Ledger, token: Token): Ledger
    requires token in l.objects
  {
    if !l.objects[token].staging then l
    else l.(objects := l.objects[token := l.objects[token].(staging := false)], stagePermits := l.stagePermits - 1)
  }

  /** Identity-bound: only the token the id is mapped to right now can release anything. */
  function ReleaseReservation(l: Ledger, token: Token): Ledger
    requires token in l.objects
  {
    var r := l.objects[token];
    if r.released || r.id !in l.live || l.live[r.id] != token then l
    else
      var l1 := l.(objects := l.objects[token := r.(released := true)],
                   live := l.live - {r.id},
                   count := l.count - 1,
                   bytes := l.bytes - r.bytes);
      if r.consumer !in l.consumers then l1
      else
        var t := Tally(l.consumers[r.consumer].count - 1, l.consumers[r.consumer].bytes - r.bytes);
        if t == Tally(0, 0) then l1.(consumers := l.consumers - {r.consumer})
        else l1.(consumers := l.consumers[r.consumer := t])
  }

  // ---------------------------------------------------------------------------------------------
  // What the counters mean
  // ---------------------------------------------------------------------------------------------

  datatype Measure = Count | Bytes | Stage

  /** What one reservation contributes to a total, for one consumer or (None) for everybody. */
  ghost function Weight(r: Reservation, who: Option<Consumer>, m: Measure): int {
    if who.Some? && who.value != r.consumer then 0
    else match m
      case Count => 1
      case Bytes => r.bytes
      case Stage => if r.staging then 1 else 0
  }

  ghost predicate Linked(l: Ledger) {
    && (forall id | id in l.live ::
          && l.live[id] in l.objects
          && l.objects[l.live[id]].id == id
          && !l.objects[l.live[id]].released)
    && (forall t | t in l.objects && !l.objects[t].released :: l.objects[t].id in l.live && l.live[l.objects[t].id] == t)
    && (forall t | t in l.objects && l.objects[t].released :: !l.objects[t].staging)
  }

  ghost function Weights(l: Ledger, who: Option<Consumer>, m: Measure): map<Id, int>
    requires Linked(l)
  {
    map id | id in l.live :: Weight(l.objects[l.live[id]], who, m)
  }

  /** The sum over live reservations that a counter is supposed to equal. */
  ghost function Total(l: Ledger, who: Option<Consumer>, m: Measure): int
    requires Linked(l)
  {
    Sum(Weights(l, who, m))
  }

  ghost predicate ConsumerConserved(l: Ledger, c: Consumer)
    requires Linked(l)
  {
    && TallyOf(l, c) == Tally(Total(l, Some(c), Count), Total(l, Some(c), Bytes))
    && (c in l.consumers <==> Total(l, Some(c), Count) > 0)
    && TallyOf(l, c).count <= l.limits.perConsumerCount
    && TallyOf(l, c).bytes <= l.limits.perConsumerBytes
  }

  /** Every counter is exactly the sum over live reservations, and every limit holds. */
  ghost predicate Conserved(l: Ledger) {
    && Linked(l)
    && l.count == Total(l, None, Count)
    && l.bytes == Total(l, None, Bytes)
    && l.stagePermits == Total(l, None, Stage)
    && l.count <= l.limits.maxCount
    && l.bytes <= l.limits.maxBytes
    && l.stagePermits <= MAX_STAGE_COPIES
    && forall c :: ConsumerConserved(l, c)
  }

  lemma EmptyConserved(limits: Limits)
    ensures Conserved(Empty(limits))
  {
    forall who, m ensures Total(Empty(limits), who, m) == 0 {
      assert Weights(Empty(limits), who, m) == map[];
    }
  }

  /** The counters never go below what one live reservation accounts for. */
  lemma TotalsCover(l: Ledger, id: Id, who: Option<Consumer>, m: Measure)
    requires Linked(l) && id in l.live
    ensures Total(l, who, m) >= Weight(l.objects[l.live[id]], who, m)
  {
    var w := Weights(l, who, m);
    SumRemove(w, id);
    SumNonNegative(w - {id});
  }

  lemma LiveIsLinked(l: Ledger, id: Id)
    requires Conserved(l) && id in l.live
    ensures l.live[id] in l.objects && l.objects[l.live[id]].id == id && !l.objects[l.live[id]].released
  {
  }

  /** Replacing what one id contributes moves a total by the difference. */
  lemma TotalMoves(l: Ledger, l': Ledger, id: Id, who: Option<Consumer>, m: Measure)
    requires Linked(l) && Linked(l')
    requires forall k | k != id :: k in l.live <==> k in l'.live
    requires forall k | k != id && k in l.live :: Weight(l.objects[l.live[k]], who, m) == Weight(l'.objects[l'.live[k]], who, m)
    ensures Total(l', who, m) - (if id in l'.live then Weight(l'.objects[l'.live[id]], who, m) else 0)
         == Total(l, who, m) - (if id in l.live then Weight(l.objects[l.live[id]], who, m) else 0)
  {
    SumDiffers(Weights(l, who, m), Weights(l', who, m), id);
  }

  lemma ReserveConserves(l: Ledger, token: Token, id: Id, c: Consumer)
    requires Conserved(l) && token !in l.objects
    ensures Conserved(Reserve(l, token, id, c))
    ensures var l' := Reserve(l, token, id, c);
      if Admits(l, id, c)
      then l'.live == l.live[id := token] && l'.objects == l.objects[token := Reservation(id, c, MAX_ARTIFACT_BYTES, true, false)]
      else l' == l
  {
    hide Total;
    if Admits(l, id, c) {
      var l' := Reserve(l, token, id, c);
      assert Linked(l');
      forall who, m ensures Total(l', who, m) == Total(l, who, m) + Weight(l'.objects[token], who, m) {
        TotalMoves(l, l', id, who, m);
      }
      forall d ensures ConsumerConserved(l', d) {
        assert ConsumerConserved(l, d);
      }
    }
  }

  /** A limit that holds before a claim and fails after it is what a refusal protects: everything that fits is admitted. */
  lemma AdmitsExactlyWhatFits(l: Ledger, token: Token, id: Id, c: Consumer)
    requires Conserved(l) && token !in l.objects
    ensures Admits(l, id, c) <==> id !in l.live && Conserved(Claimed(l, token, id, c))
  {
    hide Total, Linked;
    if Admits(l, id, c) {
      ReserveConserves(l, token, id, c);
    } else if Conserved(Claimed(l, token, id, c)) {
      assert ConsumerConserved(Claimed(l, token, id, c), c);
    }
  }

  lemma ShrinkConserves(l: Ledger, token: Token, bytes: nat)
    requires Conserved(l) && token in l.objects
    ensures var l' := Shrink(l, token, bytes);
      && Conserved(l') && l'.live == l.live
      && token in l'.objects
      && l'.objects[token].bytes == if l.objects[token].released || bytes >= l.objects[token].bytes then l.objects[token].bytes else bytes
  {
    hide Total;
    var r := l.objects[token];
    var l' := Shrink(l, token, bytes);
    if l' != l {
      assert Linked(l');
      forall who, m ensures Total(l', who, m) == Total(l, who, m) + Weight(l'.objects[token], who, m) - Weight(r, who, m) {
        TotalMoves(l, l', r.id, who, m);
      }
      assert ConsumerConserved(l, r.consumer);
      TotalsCover(l, r.id, Some(r.consumer), Count);
      forall d ensures ConsumerConserved(l', d) {
        assert ConsumerConserved(l, d);
      }
    }
  }

  lemma ReleaseStageConserves(l: Ledger, token: Token)
    requires Conserved(l) && token in l.objects
    ensures Conserved(ReleaseStage(l, token))
  {
    hide Total;
    var r := l.objects[token];
    var l' := ReleaseStage(l, token);
    if l' != l {
      assert Linked(l');
      forall who, m ensures Total(l', who, m) == Total(l, who, m) + Weight(l'.objects[token], who, m) - Weight(r, who, m) {
        TotalMoves(l, l', r.id, who, m);
      }
      forall d ensures ConsumerConserved(l', d) {
        assert ConsumerConserved(l, d);
      }
    }
  }

  /** Both callers release only after the copy body gave its permit back. */
  lemma ReleaseReservationConserves(l: Ledger, token: Token)
    requires Conserved(l) && token in l.objects && !l.objects[token].staging
    ensures Conserved(ReleaseReservation(l, token))
  {
    hide Total;
    var r := l.objects[token];
    var l' := ReleaseReservation(l, token);
    if l' != l {
      assert Linked(l');
      forall who, m ensures Total(l', who, m) == Total(l, who, m) - Weight(r, who, m) {
        TotalMoves(l, l', r.id, who, m);
      }
      assert ConsumerConserved(l, r.consumer);
      TotalsCover(l, r.id, Some(r.consumer), Count);
      NoCountNoBytes(l', r.consumer);
      forall d ensures ConsumerConserved(l', d) {
        assert ConsumerConserved(l, d);
        CountNonNegative(l', d);
      }
    }
  }

  lemma CountNonNegative(l: Ledger, c: Consumer)
    requires Linked(l)
    ensures Total(l, Some(c), Count) >= 0
  {
    SumNonNegative(Weights(l, Some(c), Count));
  }

  /** A consumer with no live reservation holds no bytes: dropping its tally at zero loses nothing. */
  lemma NoCountNoBytes(l: Ledger, c: Consumer)
    requires Linked(l)
    ensures Total(l, Some(c), Count) == 0 ==> Total(l, Some(c), Bytes) == 0
  {
    if Total(l, Some(c), Count) == 0 {
      forall id | id in l.live ensures Weight(l.objects[l.live[id]], Some(c), Count) == 0 {
        TotalsCover(l, id, Some(c), Count);
      }
      var w := Weights(l, Some(c), Bytes);
      SumBounded(w, 0);
      SumNonNegative(w);
    }
  }

  /** The token an id is mapped to is released, and nothing but that id is. */
  lemma ReleaseFreesItsId(l: Ledger, id: Id)
    requires Conserved(l) && id in l.live
    ensures l.live[id] in l.objects
    ensures var l' := ReleaseReservation(l, l.live[id]);
      && l'.objects == l.objects[l.live[id] := l.objects[l.live[id]].(released := true)]
      && l'.live == l.live - {id}
  {
    LiveIsLinked(l, id);
  }

  /** A holder whose reservation was released, or replaced under the same id, can move nothing. */
  lemma StaleReleaseIsInert(l: Ledger, token: Token)
    requires Linked(l) && token in l.objects
    requires l.objects[token].released || l.live[l.objects[token].id] != token
    ensures ReleaseReservation(l, token) == l
  {
  }

  /** Releasing an admitted reservation at once gives back exactly the ledger it was taken from. */
  lemma ReserveThenReleaseRestores(l: Ledger, token: Token, id: Id, c: Consumer)
    requires Conserved(l) && token !in l.objects && Admits(l, id, c)
    ensures var l' := ReleaseReservation(ReleaseStage(Reserve(l, token, id, c), token), token);
            && l' == l.(objects := l'.objects)
            && l'.objects - {token} == l.objects
  {
    hide Total;
    assert ConsumerConserved(l, c);
    var l' := ReleaseReservation(ReleaseStage(Reserve(l, token, id, c), token), token);
    assert l'.live == l.live;
    assert l'.objects - {token} == l.objects;
    NoCountNoBytes(l, c);
    CountNonNegative(l, c);
    if c in l.consumers {
      assert l'.consumers == l.consumers;
    } else {
      assert l'.consumers == l.consumers;
    }
  }

  datatype Move =
    | DoReserve(id: Id, consumer: Consumer)
    | DoShrink(token: Token, bytes: nat)
    | DoReleaseStage(token: Token)
    | DoRelease(token: Token)

  /** Any caller: tokens that do not exist, or still hold their stage permit, are not releasable. */
  function Apply(l: Ledger, mint: Token, m: Move): Ledger {
    match m
    case DoReserve(id, c) => if mint in l.objects then l else Reserve(l, mint, id, c)
    case DoShrink(t, bytes) => if t in l.objects then Shrink(l, t, bytes) else l
    case DoReleaseStage(t) => if t in l.objects then ReleaseStage(l, t) else l
    case DoRelease(t) => if t in l.objects && !l.objects[t].staging then ReleaseReservation(l, t) else l
  }

  function Replay(l: Ledger, mint: Token, moves: seq<Move>): Ledger
    decreases |moves|
  {
    if moves == [] then l else Replay(Apply(l, mint, moves[0]), mint + 1, moves[1..])
  }

  /** Over every run of ledger moves, in any order and by any holder, the counters stay the sums. */
  lemma {:induction false} ReplayConserves(l: Ledger, mint: Token, moves: seq<Move>)
    requires Conserved(l)
    ensures Conserved(Replay(l, mint, moves))
    decreases |moves|
  {
    if moves != [] {
      match moves[0] {
        case DoReserve(id, c) => if mint !in l.objects { ReserveConserves(l, mint, id, c); }
        case DoShrink(t, bytes) => if t in l.objects { ShrinkConserves(l, t, bytes); }
        case DoReleaseStage(t) => if t in l.objects { ReleaseStageConserves(l, t); }
        case DoRelease(t) => if t in l.objects && !l.objects[t].staging { ReleaseReservationConserves(l, t); }
      }
      ReplayConserves(Apply(l, mint, moves[0]), mint + 1, moves[1..]);
    }
  }
}

/** The ledger as the store keeps it: private fields, moved in place. */
module LedgerBook {
  import opened Common
  import opened L = ReservationLedger

  class Book {
    const limits: Limits
    var objects: map<Token, Reservation>
    var live: map<Id, Token>
    var count: int
    var bytes: int
    var stagePermits: int
    var consumers: map<Consumer, Tally>
    var next: Token

    ghost function View(): Ledger reads this {
      Ledger(limits, objects, live, count, bytes, stagePermits, consumers)
    }

    ghost predicate Valid() reads this {
      Conserved(View()) && forall t | t in objects :: t < next
    }

    constructor (limits: Limits)
      ensures Valid() && View() == Empty(limits) && next == 0
    {
      this.limits := limits;
      objects, live, consumers := map[], map[], map[];
      count, bytes, stagePermits, next := 0, 0, 0, 0;
      new;
      EmptyConserved(limits);
    }

    method Reserve(id: Id, consumer: Consumer) returns (token: Option<Token>)
      requires Valid()
      modifies this
      ensures Valid() && View() == L.Reserve(old(View()), old(next), id, consumer)
      ensures token == if Admits(old(View()), id, consumer) then Some(old(next)) else None
      ensures next == old(next) + if token.Some? then 1 else 0
    {
      hide Conserved;
      ReserveConserves(View(), next, id, consumer);
      if id in live || stagePermits >= MAX_STAGE_COPIES { return None; }
      var t := if consumer in consumers then consumers[consumer] else Tally(0, 0);
      if count + 1 > limits.maxCount || t.count + 1 > limits.perConsumerCount { return None; }
      if bytes + MAX_ARTIFACT_BYTES > limits.maxBytes || t.bytes + MAX_ARTIFACT_BYTES > limits.perConsumerBytes { return None; }
      objects := objects[next := Reservation(id, consumer, MAX_ARTIFACT_BYTES, true, false)];
      live := live[id := next];
      count := count + 1;
      bytes := bytes + MAX_ARTIFACT_BYTES;
      consumers := consumers[consumer := Tally(t.count + 1, t.bytes + MAX_ARTIFACT_BYTES)];
      stagePermits := stagePermits + 1;
      token := Some(next);
      next := next + 1;
    }

    method Shrink(token: Token, size: nat)
      requires Valid() && token in objects
      modifies this
      ensures Valid() && View() == L.Shrink(old(View()), token, size) && next == old(next)
    {
      hide Conserved;
      ShrinkConserves(View(), token, size);
      var r := objects[token];
      if r.released || size >= r.bytes { return; }
      var freed := r.bytes - size;
      objects := objects[token := r.(bytes := size)];
      bytes := bytes - freed;
      if r.consumer in consumers {
        var t := consumers[r.consumer];
        consumers := consumers[r.consumer := t.(bytes := t.bytes - freed)];
      }
    }

    method ReleaseStage(token: Token)
      requires Valid() && token in objects
      modifies this
      ensures Valid() && View() == L.ReleaseStage(old(View()), token) && next == old(next)
    {
      hide Conserved;
      ReleaseStageConserves(View(), token);
      if objects[token].staging {
        objects := objects[token := objects[token].(staging := false)];
        stagePermits := stagePermits - 1;
      }
    }

    method ReleaseReservation(token: Token)
      requires Valid() && token in objects && !objects[token].staging
      modifies this
      ensures Valid() && View() == L.ReleaseReservation(old(View()), token) && next == old(next)
    {
      hide Conserved;
      ReleaseReservationConserves(View(), token);
      var r := objects[token];
      if r.released || r.id !in live || live[r.id] != token { return; }
      objects := objects[token := r.(released := true)];
      live := live - {r.id};
      count := count - 1;
      bytes := bytes - r.bytes;
      if r.consumer in consumers {
        var t := consumers[r.consumer];
        t := Tally(t.count - 1, t.bytes - r.bytes);
        if t.count == 0 && t.bytes == 0 {
          consumers := consumers - {r.consumer};
        } else {
          consumers := consumers[r.consumer := t];
        }
      }
    }
  }
}
