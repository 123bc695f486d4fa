/** What a key may reach, and which token carries it, after any sequence of completed edits. */
module ConsumerGrants {
  import opened Common
  import opened GatewayConfig
  import opened ConsumerKeys

  // -- one edit -------------------------------------------------------------------------------------

  /** Every manifest entry of one consumer. */
  function EntriesFor(entries: seq<Entry>, x: string): seq<Entry> {
    if entries == [] then [] else (if entries[0].id == x then [entries[0]] else []) + EntriesFor(entries[1..], x)
  }

  lemma {:induction false} EntriesForAppend(a: seq<Entry>, b: seq<Entry>, x: string)
    ensures EntriesFor(a + b, x) == EntriesFor(a, x) + EntriesFor(b, x)
    decreases |a|
  {
    if a == [] {
      assert a + b == b;
    } else {
      assert (a + b)[0] == a[0] && (a + b)[1..] == a[1..] + b;
      EntriesForAppend(a[1..], b, x);
    }
  }

  lemma {:induction false} NoEntries(entries: seq<Entry>, x: string)
    ensures EntriesFor(entries, x) == [] <==> !InManifest(entries, x)
    decreases |entries|
  {
    if entries != [] {
      NoEntries(entries[1..], x);
      ManifestFirst(entries, x);
    }
  }

  lemma {:induction false} DroppedEntries(entries: seq<Entry>, id: string, x: string)
    ensures EntriesFor(Dropped(entries, id), x) == if x == id then [] else EntriesFor(entries, x)
    decreases |entries|
  {
    if entries != [] {
      DroppedEntries(entries[1..], id, x);
      var first := if entries[0].id == id then [] else [entries[0]];
      EntriesForAppend(first, Dropped(entries[1..], id), x);
      if entries[0].id != id { assert [entries[0]][1..] == []; }
    }
  }

  /** The rules a key was asked for: verbatim when there are any, everything only when there are none. */
  predicate AsAsked(rules: seq<string>, allow: seq<string>) { if allow == [] then rules == ["*"] else rules == allow }

  /** A completed mint writes one entry for its own consumer, with the rules asked for, and none for anybody else. */
  lemma NewGrants(h: Host, key: string -> string, id: string, allow: seq<string>, token: string, sizing: Sizing, x: string)
    requires New(h, key, id, allow, token, sizing).Ok?
    ensures var granted := EntriesFor(New(h, key, id, allow, token, sizing).value.entries, x);
      if x == id then |granted| == 1 && granted[0].id == id && AsAsked(granted[0].allow, allow) else granted == EntriesFor(h.entries, x)
  {
    hide Test, FloorRefuses, Based, Minted;
    var h' := New(h, key, id, allow, token, sizing).value;
    assert h'.entries == h.entries + [h'.entries[|h.entries|]];
    EntriesForAppend(h.entries, [h'.entries[|h.entries|]], x);
    assert [h'.entries[|h.entries|]][1..] == [];
    NoEntries(h.entries, id);
  }

  /** A completed revocation takes every entry of its own consumer and nobody else's. */
  lemma RevokeGrants(h: Host, key: string -> string, id: string, x: string)
    requires Revoke(h, key, id).Ok?
    ensures EntriesFor(Revoke(h, key, id).value.entries, x) == if x == id then [] else EntriesFor(h.entries, x)
  {
    hide Test;
    DroppedEntries(h.entries, id, x);
    NoEntries(h.entries, id);
  }

  // -- any sequence of them -------------------------------------------------------------------------

  /** The host as the `k`-th edit finds it. */
  function HostAt(h: Host, key: string -> string, es: seq<Edit>, k: nat): Host
    requires k <= |es|
  {
    AllDone(h, key, es[..k])
  }

  predicate Accepted(h: Host, key: string -> string, e: Edit) {
    match e
    case Mint(id, allow, token, sizing) => New(h, key, id, allow, token, sizing).Ok?
    case Drop(id) => Revoke(h, key, id).Ok?
  }

  /** The `k`-th edit is a completed one about `x`. */
  ghost predicate Decides(h: Host, key: string -> string, es: seq<Edit>, x: string, k: nat)
    requires k < |es|
  {
    es[k].id == x && Accepted(HostAt(h, key, es, k), key, es[k])
  }

  /** No edit from the `k`-th on is a completed one about `x`. */
  ghost predicate NoneDecides(h: Host, key: string -> string, es: seq<Edit>, x: string, k: nat) {
    forall j: nat | k <= j < |es| :: !Decides(h, key, es, x, j)
  }

  lemma {:induction false} DoneOneMore(h: Host, key: string -> string, es: seq<Edit>, e: Edit)
    ensures AllDone(h, key, es + [e]) == Done(AllDone(h, key, es), key, e)
    decreases |es|
  {
    hide Done;
    if es == [] {
      assert es + [e] == [e] && [e][1..] == [];
    } else {
      assert (es + [e])[0] == es[0] && (es + [e])[1..] == es[1..] + [e];
      DoneOneMore(Done(h, key, es[0]), key, es[1..], e);
    }
  }

  /** What the `k`-th edit leaves. */
  lemma HostAfter(h: Host, key: string -> string, es: seq<Edit>, k: nat)
    requires k < |es|
    ensures HostAt(h, key, es, k + 1) == Done(HostAt(h, key, es, k), key, es[k])
  {
    hide AllDone, Done;
    assert es[..k + 1] == es[..k] + [es[k]];
    DoneOneMore(h, key, es[..k], es[k]);
  }

  /** One edit leaves alone every consumer it is not a completed edit about. */
  lemma DoneSparesOthers(h: Host, key: string -> string, e: Edit, x: string)
    requires !(e.id == x && Accepted(h, key, e))
    ensures EntriesFor(Done(h, key, e).entries, x) == EntriesFor(h.entries, x)
  {
    hide New, Revoke, EntriesFor;
    match e {
      case Mint(id, allow, token, sizing) => if New(h, key, id, allow, token, sizing).Ok? { NewGrants(h, key, id, allow, token, sizing, x); }
      case Drop(id) => if Revoke(h, key, id).Ok? { RevokeGrants(h, key, id, x); }
    }
  }

  lemma {:induction false} EntriesStay(h: Host, key: string -> string, es: seq<Edit>, x: string, k: nat, n: nat)
    requires k <= n <= |es| && forall j: nat | k <= j < n :: !Decides(h, key, es, x, j)
    ensures EntriesFor(HostAt(h, key, es, n).entries, x) == EntriesFor(HostAt(h, key, es, k).entries, x)
    decreases n
  {
    hide HostAt, EntriesFor, Accepted, Done;
    if k < n {
      EntriesStay(h, key, es, x, k, n - 1);
      HostAfter(h, key, es, n - 1);
      assert !Decides(h, key, es, x, n - 1);
      DoneSparesOthers(HostAt(h, key, es, n - 1), key, es[n - 1], x);
    }
  }

  lemma HostAtEnds(h: Host, key: string -> string, es: seq<Edit>)
    ensures HostAt(h, key, es, |es|) == AllDone(h, key, es) && HostAt(h, key, es, 0) == h
  {
    assert es[..|es|] == es && es[..0] == [];
  }

  /**
   What the manifest says of a consumer is what its last completed edit said, whatever happened to the
   others in between: one entry with the rules that mint asked for, or none after a revocation.
   */
  lemma LastEditDecides(h: Host, key: string -> string, es: seq<Edit>, x: string, k: nat)
    requires k < |es| && Decides(h, key, es, x, k) && NoneDecides(h, key, es, x, k + 1)
    ensures var granted := EntriesFor(AllDone(h, key, es).entries, x);
      if es[k].Mint? then |granted| == 1 && granted[0].id == x && AsAsked(granted[0].allow, es[k].allow) else granted == []
  {
    hide HostAt, EntriesFor, AllDone, New, Revoke, AsAsked;
    EntriesStay(h, key, es, x, k + 1, |es|);
    HostAtEnds(h, key, es);
    HostAfter(h, key, es, k);
    var before := HostAt(h, key, es, k);
    match es[k] {
      case Mint(id, allow, token, sizing) => NewGrants(before, key, id, allow, token, sizing, x);
      case Drop(id) => RevokeGrants(before, key, id, x);
    }
  }

  /** A consumer no completed edit was about has the entries it had. */
  lemma UntouchedIsKept(h: Host, key: string -> string, es: seq<Edit>, x: string)
    requires NoneDecides(h, key, es, x, 0)
    ensures EntriesFor(AllDone(h, key, es).entries, x) == EntriesFor(h.entries, x)
  {
    hide HostAt, EntriesFor, AllDone;
    EntriesStay(h, key, es, x, 0, |es|);
    HostAtEnds(h, key, es);
  }

  // -- the token ------------------------------------------------------------------------------------

  /** The consumer's line in the env file and its token in the keychain are the same one. */
  ghost predicate Carries(h: Host, key: string -> string, x: string, token: string) {
    && Minted(key(x), token) in Lines(h.env)
    && x in h.keychain && h.keychain[x] == token
  }

  lemma MintedIsSomething(k: string, token: string)
    ensures Minted(k, token) != ""
  {
  }

  lemma BodyHasTheRest(env: string, l: string)
    requires l in Lines(env) && l != ""
    ensures l in Body(env)
  {
    if env != "" && env[|env| - 1] == '\n' {
      var front := env[..|env| - 1];
      assert env == front + "\n" + "";
      LinesAppend(front, "");
    }
  }

  lemma NewCarries(h: Host, key: string -> string, id: string, allow: seq<string>, token: string, sizing: Sizing, x: string, t: string)
    requires Keyish(key(id)) && Hex(token) && New(h, key, id, allow, token, sizing).Ok?
    ensures var h' := New(h, key, id, allow, token, sizing).value;
      Carries(h', key, id, token) && (x != id && Carries(h, key, x, t) ==> Carries(h', key, x, t))
  {
    hide Test, Lines, Body, Based, Minted, Keyish;
    var h' := New(h, key, id, allow, token, sizing).value;
    MintedHas(key(id), token, key(id));
    BasedLines(h.env, Minted(key(id), token));
    assert Minted(key(id), token) in [Minted(key(id), token), ""];
    if x != id && Carries(h, key, x, t) {
      MintedIsSomething(key(x), t);
      BodyHasTheRest(h.env, Minted(key(x), t));
    }
  }

  lemma DistinctIds(entries: seq<Entry>, key: string -> string, a: string, b: string)
    requires DistinctKeys(entries, key) && InManifest(entries, a) && InManifest(entries, b) && a != b
    ensures key(a) != key(b)
  {
  }

  lemma RevokeCarries(h: Host, key: string -> string, id: string, x: string, t: string)
    requires Keys(key) && Consistent(h, key) && Hex(t) && Revoke(h, key, id).Ok?
    requires x != id && InManifest(h.entries, x) && Carries(h, key, x, t)
    ensures Carries(Revoke(h, key, id).value, key, x, t)
  {
    hide Test, Lines, Minted, Keyish, Kept, Joined, Count;
    OwnedInManifest(h, key, id);
    DistinctIds(h.entries, key, x, id);
    MintedHas(key(x), t, key(id));
    KeptLines(Lines(h.env), key(id));
    JoinedLines(h.env, key(id));
    var i :| 0 <= i < |Lines(h.env)| && Lines(h.env)[i] == Minted(key(x), t);
    assert Minted(key(x), t) in Kept(Lines(h.env), key(id));
  }

  lemma {:induction false} CarriesStays(h: Host, key: string -> string, es: seq<Edit>, x: string, k: nat, n: nat, t: string)
    requires Keys(key) && Consistent(h, key) && (forall i | 0 <= i < |es| && es[i].Mint? :: Hex(es[i].token)) && Hex(t)
    requires k <= n <= |es| && forall j: nat | k <= j < n :: !Decides(h, key, es, x, j)
    requires InManifest(HostAt(h, key, es, k).entries, x) && Carries(HostAt(h, key, es, k), key, x, t)
    ensures InManifest(HostAt(h, key, es, n).entries, x) && Carries(HostAt(h, key, es, n), key, x, t)
    decreases n
  {
    hide HostAt, EntriesFor, Carries, Consistent, Keys, New, Revoke, InManifest, Hex;
    if k < n {
      CarriesStays(h, key, es, x, k, n - 1, t);
      var h1, e := HostAt(h, key, es, n - 1), es[n - 1];
      HostAfter(h, key, es, n - 1);
      assert !Decides(h, key, es, x, n - 1);
      DoneSparesOthers(h1, key, e, x);
      NoEntries(h1.entries, x);
      NoEntries(HostAt(h, key, es, n).entries, x);
      HostConsistent(h, key, es, n - 1);
      match e {
        case Mint(id, allow, token, sizing) =>
          if New(h1, key, id, allow, token, sizing).Ok? { KeysAre(key, id); NewCarries(h1, key, id, allow, token, sizing, x, t); }
        case Drop(id) =>
          if Revoke(h1, key, id).Ok? { RevokeCarries(h1, key, id, x, t); }
      }
    }
  }

  lemma KeysAre(key: string -> string, id: string)
    requires Keys(key)
    ensures Keyish(key(id))
  {
  }

  lemma HostConsistent(h: Host, key: string -> string, es: seq<Edit>, k: nat)
    requires Keys(key) && Consistent(h, key) && (forall i | 0 <= i < |es| && es[i].Mint? :: Hex(es[i].token)) && k <= |es|
    ensures Consistent(HostAt(h, key, es, k), key)
  {
    hide Consistent, Keys, AllDone, Hex;
    EditsKeepConsistent(h, key, es[..k]);
  }

  /** A text with one line for a key has no other. */
  lemma {:induction false} OnlyLine(lines: seq<string>, k: string, l: string, m: string)
    requires Count(lines, k) <= 1 && l in lines && m in lines && Test(l, true, k) && Test(m, true, k)
    ensures l == m
    decreases |lines|
  {
    hide Test;
    var rest := lines[1..];
    CountIsSome(rest, k);
    if lines[0] != l && lines[0] != m {
      OnlyLine(rest, k, l, m);
    } else if l != m {
      LaterLine(lines, if lines[0] == l then m else l);
    }
  }

  lemma LaterLine(lines: seq<string>, l: string)
    requires l in lines && lines[0] != l
    ensures l in lines[1..]
  {
    var i :| 0 <= i < |lines| && lines[i] == l;
    assert lines[1..][i - 1] == l;
  }

  /**
   After any sequence of completed edits a consumer whose last one was a mint is carried by that mint's
   token: its line is in the env file, no other line carries the key, and the keychain holds the same one.
   */
  lemma TokenIsOfLastMint(h: Host, key: string -> string, es: seq<Edit>, x: string, k: nat)
    requires Keys(key) && Consistent(h, key) && forall i | 0 <= i < |es| && es[i].Mint? :: Hex(es[i].token)
    requires k < |es| && es[k].Mint? && Decides(h, key, es, x, k) && NoneDecides(h, key, es, x, k + 1)
    ensures var h' := AllDone(h, key, es);
      && Carries(h', key, x, es[k].token)
      && forall l | l in Lines(h'.env) && Test(l, true, key(x)) :: l == Minted(key(x), es[k].token)
  {
    hide HostAt, EntriesFor, AllDone, New, Carries, Consistent, Keys, Test, Lines, Minted, Hex, Count;
    var e, h1 := es[k], HostAt(h, key, es, k);
    KeysAre(key, x);
    HostAfter(h, key, es, k);
    NewCarries(h1, key, x, e.allow, e.token, e.sizing, x, e.token);
    NewGrants(h1, key, x, e.allow, e.token, e.sizing, x);
    NoEntries(HostAt(h, key, es, k + 1).entries, x);
    CarriesStays(h, key, es, x, k + 1, |es|, e.token);
    HostAtEnds(h, key, es);
    var h' := AllDone(h, key, es);
    HostConsistent(h, key, es, |es|);
    OneLineEach(h', key, x);
    MintedHas(key(x), e.token, key(x));
    CarriesLine(h', key, x, e.token);
    forall l | l in Lines(h'.env) && Test(l, true, key(x)) ensures l == Minted(key(x), e.token) {
      OnlyLine(Lines(h'.env), key(x), l, Minted(key(x), e.token));
    }
  }

  lemma OneLineEach(h: Host, key: string -> string, x: string)
    requires Consistent(h, key)
    ensures Count(Lines(h.env), key(x)) <= 1
  {
  }

  lemma CarriesLine(h: Host, key: string -> string, x: string, token: string)
    requires Carries(h, key, x, token)
    ensures Minted(key(x), token) in Lines(h.env)
  {
  }

  // -- when an edit is completed --------------------------------------------------------------------

  /** A mint is completed exactly when the id is a valid new one, its env key is nobody's and nowhere, and the pool has room for one more share. */
  lemma MintsIff(h: Host, key: string -> string, id: string, allow: seq<string>, token: string, sizing: Sizing)
    ensures New(h, key, id, allow, token, sizing).Ok? <==>
      && ValidId(id)
      && (forall i | 0 <= i < |h.entries| :: h.entries[i].id != id && key(h.entries[i].id) != key(id))
      && !HasToken(h.env, key(id))
      && (sizing.Settled? ==> (|h.entries| + 1) * sizing.perConsumer < sizing.max)
  {
    hide Test, HasToken, ValidId, Based, Minted;
    TestIsHasToken(h.env, key(id));
  }

  /** A revocation is completed exactly when the consumer is known, or an unowned token line is. */
  lemma RevokesIff(h: Host, key: string -> string, id: string)
    ensures Revoke(h, key, id).Ok? <==>
      || (exists i | 0 <= i < |h.entries| :: h.entries[i].id == id)
      || (HasToken(h.env, key(id)) && forall i | 0 <= i < |h.entries| :: key(h.entries[i].id) != key(id))
  {
    hide Test, HasToken, Kept, Lines, Joined, Dropped;
    TestIsHasToken(h.env, key(id));
  }

  /** After a completed revocation nothing of the consumer is left: no entry, no token, nothing in the keychain. */
  lemma RevokeLeavesNothing(h: Host, key: string -> string, id: string)
    requires Keyish(key(id)) && Revoke(h, key, id).Ok?
    ensures var h' := Revoke(h, key, id).value;
      EntriesFor(h'.entries, id) == [] && !HasToken(h'.env, key(id)) && id !in h'.keychain
  {
    hide Test, HasToken, Kept, Lines, Joined, Dropped, EntriesFor;
    RevokeGrants(h, key, id, id);
    RevokeKeepsTokenIff(h, key, id, key(id));
    TestIsHasToken(Revoke(h, key, id).value.env, key(id));
  }
}
