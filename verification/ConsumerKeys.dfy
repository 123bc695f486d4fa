/**
 Minting and revoking a consumer key: `keysNew`, `keysRevoke` and `tokenLineRe` of `src/cli/keys.ts`, over
 the manifest (a list of entries), the env file (text) and the keychain. `tokenEnvKey` is an unknown
 function; all that is used of it is that a key is made of letters, digits and underscores.
 */
module ConsumerKeys {
  import opened Common
  import opened GatewayConfig

  datatype Entry = Entry(id: string, allow: seq<string>)

  /** What the host holds. */
  datatype Host = Host(entries: seq<Entry>, env: string, keychain: map<string, string>)

  /** The pool sizing the env file settles, if it settles it. */
  datatype Sizing = Unchecked | Settled(max: nat, perConsumer: nat)

  datatype Result<T> = Ok(value: T) | Refused

  predicate KeyChar(c: char) { 'A' <= c <= 'Z' || '0' <= c <= '9' || c == '_' }

  predicate Keyish(k: string) { k != "" && 'A' <= k[0] <= 'Z' && forall i | 0 <= i < |k| :: KeyChar(k[i]) }

  predicate Hex(t: string) { forall i | 0 <= i < |t| :: '0' <= t[i] <= '9' || 'a' <= t[i] <= 'f' }

  // -- tokenLineRe ----------------------------------------------------------------------------------

  /** Where `^` matches under the `m` flag. */
  predicate LineEnd(c: char) { c == '\n' || c == '\r' || c == '\U{2028}' || c == '\U{2029}' }

  predicate StartsLine(s: string, p: nat) { p <= |s| && (p == 0 || LineEnd(s[p - 1])) }

  function SkipBlanks(s: string): string {
    if s != "" && (s[0] == ' ' || s[0] == '\t') then SkipBlanks(s[1..]) else s
  }

  /** `(export[ \t]+)?KEY=` at the front of `s`. */
  predicate MatchesHere(s: string, key: string) {
    || key + "=" <= s
    || ("export" <= s && |s| > 6 && (s[6] == ' ' || s[6] == '\t') && key + "=" <= SkipBlanks(s[6..]))
  }

  /** `tokenLineRe(key).test(s)`. */
  ghost predicate HasToken(s: string, key: string) {
    exists p: nat :: StartsLine(s, p) && MatchesHere(s[p..], key)
  }

  // -- lines ----------------------------------------------------------------------------------------

  function Lines(s: string): (r: seq<string>)
    ensures |r| > 0
  {
    if s == "" then [""]
    else
      var rest := Lines(s[1..]);
      if s[0] == '\n' then [""] + rest else [[s[0]] + rest[0]] + rest[1..]
  }

  function Unlines(lines: seq<string>): string
    requires lines != []
  {
    if |lines| == 1 then lines[0] else lines[0] + "\n" + Unlines(lines[1..])
  }

  lemma {:induction false} UnlinesLines(s: string)
    ensures Unlines(Lines(s)) == s
    ensures forall i | 0 <= i < |Lines(s)| :: '\n' !in Lines(s)[i]
  {
    if s != "" {
      UnlinesLines(s[1..]);
      var rest := Lines(s[1..]);
      if s[0] == '\n' {
        assert Lines(s)[1..] == rest;
        assert "" + "\n" + Unlines(rest) == s;
      } else {
        assert Lines(s)[1..] == rest[1..];
        assert [s[0]] + s[1..] == s;
        if |rest| > 1 { assert [s[0]] + (rest[0] + "\n" + Unlines(rest[1..])) == [s[0]] + rest[0] + "\n" + Unlines(rest[1..]); }
      }
    }
  }

  /** Text that ends in a newline, then more text, are the lines of the one and then of the other. */
  lemma {:induction false} LinesAppend(a: string, b: string)
    ensures Lines(a + "\n" + b) == Lines(a) + Lines(b)
  {
    var s := a + "\n" + b;
    if a == "" {
      assert s[1..] == b;
    } else {
      assert s[1..] == a[1..] + "\n" + b;
      LinesAppend(a[1..], b);
    }
  }

  lemma {:induction false} LineOfItself(s: string)
    requires '\n' !in s
    ensures Lines(s) == [s]
  {
    if s != "" {
      LineOfItself(s[1..]);
      assert [s[0]] + s[1..] == s;
    }
  }

  lemma {:induction false} LinesUnlines(lines: seq<string>)
    requires lines != [] && forall i | 0 <= i < |lines| :: '\n' !in lines[i]
    ensures Lines(Unlines(lines)) == lines
    decreases |lines|
  {
    LineOfItself(lines[0]);
    if |lines| > 1 {
      LinesUnlines(lines[1..]);
      LinesAppend(lines[0], Unlines(lines[1..]));
    }
  }

  // -- a token is always inside one line ------------------------------------------------------------

  lemma {:induction false} BlanksStayInside(a: string, b: string)
    requires a != "" && (a[0] == ' ' || a[0] == '\t')
    ensures SkipBlanks(a + "\n" + b) == SkipBlanks(a) + "\n" + b
  {
    assert (a + "\n" + b)[1..] == a[1..] + "\n" + b;
    if a[1..] != "" && (a[1] == ' ' || a[1] == '\t') {
      BlanksStayInside(a[1..], b);
    } else if a[1..] == "" {
      assert "" + "\n" + b == "\n" + b;
      assert SkipBlanks("\n" + b) == "\n" + b;
    } else {
      assert SkipBlanks(a[1..] + "\n" + b) == a[1..] + "\n" + b;
    }
  }

  /** A prefix without newlines is a prefix of what comes before the first one. */
  lemma PrefixInside(k: string, a: string, b: string)
    requires '\n' !in k && k != ""
    ensures k <= a + "\n" + b <==> k <= a
  {
    var s := a + "\n" + b;
    assert s[|a|] == '\n';
    assert |a| < |k| ==> k[|a|] in k;
    assert |k| <= |a| ==> s[..|k|] == a[..|k|];
  }

  lemma MatchInside(a: string, b: string, key: string)
    requires Keyish(key)
    ensures MatchesHere(a + "\n" + b, key) <==> MatchesHere(a, key)
  {
    var s := a + "\n" + b;
    var k := key + "=";
    assert forall i | 0 <= i < |k| :: k[i] != '\n';
    PrefixInside(k, a, b);
    PrefixInside("export", a, b);
    if "export" <= a {
      if |a| > 6 {
        assert s[6] == a[6] && s[6..] == a[6..] + "\n" + b;
        if a[6] == ' ' || a[6] == '\t' {
          BlanksStayInside(a[6..], b);
          PrefixInside(k, SkipBlanks(a[6..]), b);
        }
      } else {
        assert a == "export";
        assert s[6] == '\n';
      }
    }
  }

  /** A line that starts inside the first part matches as it does there. */
  lemma MatchInFirst(a: string, b: string, key: string, p: nat)
    requires Keyish(key) && p <= |a|
    ensures MatchesHere((a + "\n" + b)[p..], key) <==> MatchesHere(a[p..], key)
    ensures StartsLine(a + "\n" + b, p) <==> StartsLine(a, p)
  {
    hide MatchesHere, Keyish;
    assert (a + "\n" + b)[p..] == a[p..] + "\n" + b;
    MatchInside(a[p..], b, key);
  }

  lemma MatchInSecond(a: string, b: string, key: string, p: nat)
    requires p <= |b|
    ensures MatchesHere((a + "\n" + b)[|a| + 1 + p..], key) <==> MatchesHere(b[p..], key)
    ensures StartsLine(a + "\n" + b, |a| + 1 + p) <==> StartsLine(b, p)
  {
    hide MatchesHere;
    assert (a + "\n" + b)[|a| + 1 + p..] == b[p..];
  }

  /** So the text has a token exactly when one of its lines has it. */
  lemma TokenAppend(a: string, b: string, key: string)
    requires Keyish(key)
    ensures HasToken(a + "\n" + b, key) <==> HasToken(a, key) || HasToken(b, key)
  {
    hide MatchesHere, Keyish, LineEnd;
    var s := a + "\n" + b;
    if HasToken(s, key) {
      var p: nat :| StartsLine(s, p) && MatchesHere(s[p..], key);
      if p <= |a| {
        MatchInFirst(a, b, key, p);
      } else {
        MatchInSecond(a, b, key, p - |a| - 1);
      }
    }
    if HasToken(a, key) {
      var p: nat :| StartsLine(a, p) && MatchesHere(a[p..], key);
      MatchInFirst(a, b, key, p);
    }
    if HasToken(b, key) {
      var p: nat :| StartsLine(b, p) && MatchesHere(b[p..], key);
      MatchInSecond(a, b, key, p);
    }
  }

  lemma {:induction false} TokenInLines(lines: seq<string>, key: string)
    requires lines != [] && Keyish(key)
    ensures HasToken(Unlines(lines), key) <==> exists i :: 0 <= i < |lines| && HasToken(lines[i], key)
    decreases |lines|
  {
    if |lines| > 1 {
      TokenInLines(lines[1..], key);
      TokenAppend(lines[0], Unlines(lines[1..]), key);
      forall i | 0 <= i < |lines| ensures HasToken(lines[i], key) ==> i == 0 || HasToken(lines[1..][i - 1], key) {
      }
      if exists i :: 0 <= i < |lines[1..]| && HasToken(lines[1..][i], key) {
        var i :| 0 <= i < |lines[1..]| && HasToken(lines[1..][i], key);
        assert HasToken(lines[i + 1], key);
      }
    }
  }

  /** The line `keysNew` writes carries its own key's token and no other's. */
  lemma MintedLine(key: string, token: string, other: string)
    requires Keyish(key) && Keyish(other) && Hex(token)
    ensures '\n' !in "export " + key + "=" + token
    ensures HasToken("export " + key + "=" + token, other) <==> other == key
  {
    var s := "export " + key + "=" + token;
    var tail := key + "=" + token;
    assert s == "export " + tail;
    assert s[6..] == " " + tail && (" " + tail)[1..] == tail;
    assert SkipBlanks(tail) == tail;
    assert SkipBlanks(s[6..]) == tail;
    forall i | 0 <= i < |s| ensures !LineEnd(s[i]) {
      if i >= 7 { assert s[i] == tail[i - 7]; }
    }
    assert other + "=" <= tail <==> other == key by { KeyIsExact(key, token, other); }
    assert (other + "=")[0] == other[0] && s[0] == 'e';
    if other == key {
      assert StartsLine(s, 0) && s[0..] == s;
    }
    if HasToken(s, other) {
      var p: nat :| StartsLine(s, p) && MatchesHere(s[p..], other);
      assert p == 0 && s[0..] == s;
    }
  }

  lemma KeyIsExact(key: string, token: string, other: string)
    requires Keyish(key) && Keyish(other)
    ensures other + "=" <= key + "=" + token <==> other == key
  {
    var tail := key + "=" + token;
    if other + "=" <= tail {
      assert (other + "=")[|other|] == '=' == tail[|other|];
      assert forall i | 0 <= i < |key| :: tail[i] == key[i] != '=';
      assert forall i | 0 <= i < |other| :: tail[i] == other[i] != '=';
      assert tail[|key|] == '=';
      assert |other| == |key|;
      assert other == tail[..|other|];
    }
  }

  /** The scan a regular expression does, from the front; `start` is whether `^` matches here. */
  predicate Test(s: string, start: bool, key: string) {
    (start && MatchesHere(s, key)) || (s != "" && Test(s[1..], LineEnd(s[0]), key))
  }

  lemma {:induction false} TestFinds(s: string, start: bool, key: string)
    ensures Test(s, start, key) <==> (start && MatchesHere(s, key)) || exists p: nat :: p > 0 && StartsLine(s, p) && MatchesHere(s[p..], key)
  {
    if s != "" {
      TestFinds(s[1..], LineEnd(s[0]), key);
      if exists p: nat :: p > 0 && StartsLine(s, p) && MatchesHere(s[p..], key) {
        var p: nat :| p > 0 && StartsLine(s, p) && MatchesHere(s[p..], key);
        assert s[1..][p - 1..] == s[p..];
        assert p > 1 ==> StartsLine(s[1..], p - 1);
      }
      if LineEnd(s[0]) && MatchesHere(s[1..], key) { assert StartsLine(s, 1); }
      if exists p: nat :: p > 0 && StartsLine(s[1..], p) && MatchesHere(s[1..][p..], key) {
        var p: nat :| p > 0 && StartsLine(s[1..], p) && MatchesHere(s[1..][p..], key);
        assert s[1..][p..] == s[p + 1..] && StartsLine(s, p + 1);
      }
    }
  }

  lemma TestIsHasToken(s: string, key: string)
    ensures Test(s, true, key) <==> HasToken(s, key)
  {
    TestFinds(s, true, key);
    assert s[0..] == s;
    if MatchesHere(s, key) { assert StartsLine(s, 0) && MatchesHere(s[0..], key); }
  }

  // -- the two edits --------------------------------------------------------------------------------

  predicate Alnum(c: char) { 'A' <= c <= 'Z' || 'a' <= c <= 'z' || '0' <= c <= '9' }

  predicate ValidId(id: string) {
    id != "" && Alnum(id[0]) && forall i | 0 <= i < |id| :: Alnum(id[i]) || id[i] in {'.', '_', '-'}
  }

  predicate InManifest(entries: seq<Entry>, id: string) { exists i | 0 <= i < |entries| :: entries[i].id == id }

  /** Another consumer's id that maps onto the same env key. */
  predicate Collides(entries: seq<Entry>, key: string -> string, id: string) {
    exists i | 0 <= i < |entries| :: entries[i].id != id && key(entries[i].id) == key(id)
  }

  function Based(env: string): string { if env == "" || env[|env| - 1] == '\n' then env else env + "\n" }

  function Minted(k: string, token: string): string { "export " + k + "=" + token }

  function FloorRefuses(consumers: nat, sizing: Sizing): bool {
    sizing.Settled? && PoolSizingError(consumers, sizing.perConsumer, sizing.max).Some?
  }

  predicate MayMint(h: Host, key: string -> string, id: string, sizing: Sizing) {
    && ValidId(id) && !InManifest(h.entries, id) && !Collides(h.entries, key, id)
    && !Test(h.env, true, key(id)) && !FloorRefuses(|h.entries| + 1, sizing)
  }

  /** `keysNew`, all its writes done. */
  function New(h: Host, key: string -> string, id: string, allow: seq<string>, token: string, sizing: Sizing): Result<Host> {
    if !MayMint(h, key, id, sizing) then Refused
    else Ok(Host(h.entries + [Entry(id, if allow == [] then ["*"] else allow)],
                 Based(h.env) + Minted(key(id), token) + "\n",
                 h.keychain[id := token]))
  }

  function Dropped(entries: seq<Entry>, id: string): seq<Entry> {
    if entries == [] then [] else (if entries[0].id == id then [] else [entries[0]]) + Dropped(entries[1..], id)
  }

  function Kept(lines: seq<string>, k: string): seq<string> {
    if lines == [] then [] else (if Test(lines[0], true, k) then [] else [lines[0]]) + Kept(lines[1..], k)
  }

  function Joined(lines: seq<string>): string { if lines == [] then "" else Unlines(lines) }

  function Revoke(h: Host, key: string -> string, id: string): Result<Host> {
    var inManifest, inEnv := InManifest(h.entries, id), Test(h.env, true, key(id));
    if !inManifest && !inEnv then Refused
    else if !inManifest && inEnv && Collides(h.entries, key, id) then Refused
    else Ok(Host(if inManifest then Dropped(h.entries, id) else h.entries,
                 if inEnv then Joined(Kept(Lines(h.env), key(id))) else h.env,
                 h.keychain - {id}))
  }

  // -- what the edits do to the lines ---------------------------------------------------------------

  /** How many lines carry the token of `k`. */
  function Count(lines: seq<string>, k: string): nat {
    if lines == [] then 0 else (if Test(lines[0], true, k) then 1 else 0) + Count(lines[1..], k)
  }

  lemma {:induction false} CountAppend(a: seq<string>, b: seq<string>, k: string)
    ensures Count(a + b, k) == Count(a, k) + Count(b, k) && Kept(a + b, k) == Kept(a, k) + Kept(b, k)
    decreases |a|
  {
    if a == [] {
      assert a + b == b;
    } else {
      assert (a + b)[1..] == a[1..] + b;
      CountAppend(a[1..], b, k);
    }
  }

  lemma {:induction false} CountIsSome(lines: seq<string>, k: string)
    ensures Count(lines, k) == 0 <==> forall i | 0 <= i < |lines| :: !Test(lines[i], true, k)
    ensures Count(lines, k) == 0 ==> Kept(lines, k) == lines
  {
    if lines != [] {
      CountIsSome(lines[1..], k);
      assert lines == [lines[0]] + lines[1..];
      if Count(lines, k) == 0 {
        forall i | 0 <= i < |lines| ensures !Test(lines[i], true, k) {
          if i > 0 { assert lines[i] == lines[1..][i - 1]; }
        }
      }
      if forall i | 0 <= i < |lines| :: !Test(lines[i], true, k) {
        assert forall i | 0 <= i < |lines[1..]| :: lines[1..][i] == lines[i + 1];
      }
    }
  }

  lemma TextHasIt(env: string, k: string)
    requires Keyish(k)
    ensures Test(env, true, k) <==> Count(Lines(env), k) > 0
  {
    UnlinesLines(env);
    TokenInLines(Lines(env), k);
    TestIsHasToken(env, k);
    CountIsSome(Lines(env), k);
    forall i | 0 <= i < |Lines(env)| ensures Test(Lines(env)[i], true, k) <==> HasToken(Lines(env)[i], k) {
      TestIsHasToken(Lines(env)[i], k);
    }
  }

  lemma EmptyLineHasNone(k: string)
    ensures !Test("", true, k)
  {
  }

  /** The env file's lines before its final newline. */
  function Body(env: string): seq<string> {
    if env == "" then [] else if env[|env| - 1] == '\n' then Lines(env[..|env| - 1]) else Lines(env)
  }

  function Front(env: string): string
    requires env != ""
  {
    if env[|env| - 1] == '\n' then env[..|env| - 1] else env
  }

  lemma BasedShape(env: string)
    requires env != ""
    ensures Based(env) == Front(env) + "\n" && Body(env) == Lines(Front(env))
  {
  }

  lemma BasedLines(env: string, minted: string)
    requires '\n' !in minted
    ensures Lines(Based(env)) == Body(env) + [""]
    ensures Lines(Based(env) + minted + "\n") == Body(env) + [minted, ""]
    ensures Joined(Body(env) + [""]) == Based(env)
  {
    hide Lines, Body, Based, Front;
    UnlinesLines(Based(env));
    MintedLines(minted);
    if env == "" {
      EmptyBased();
      assert "" + minted + "\n" == minted + "\n";
      assert [] + [minted, ""] == [minted, ""];
    } else {
      BasedShape(env);
      var front := Front(env);
      assert Based(env) == front + "\n" + "";
      LinesAppend(front, "");
      EmptyBased();
      assert Based(env) + minted + "\n" == front + "\n" + (minted + "\n");
      LinesAppend(front, minted + "\n");
    }
  }

  lemma EmptyBased()
    ensures Based("") == "" && Body("") == [] && Lines("") == [""]
  {
  }

  lemma MintedLines(minted: string)
    requires '\n' !in minted
    ensures Lines(minted + "\n") == [minted, ""]
  {
    LineOfItself(minted);
    LinesAppend(minted, "");
    assert minted + "\n" + "" == minted + "\n";
  }

  ghost predicate Keys(key: string -> string) { forall id :: Keyish(key(id)) }

  lemma MintedHas(k: string, token: string, other: string)
    requires Keyish(k) && Keyish(other) && Hex(token)
    ensures '\n' !in Minted(k, token) && (Test(Minted(k, token), true, other) <==> other == k)
  {
    MintedLine(k, token, other);
    TestIsHasToken(Minted(k, token), other);
  }

  /** Minting adds one token line, its own. */
  lemma NewCounts(h: Host, key: string -> string, id: string, allow: seq<string>, token: string, sizing: Sizing, k: string)
    requires Keyish(key(id)) && Keyish(k) && Hex(token) && New(h, key, id, allow, token, sizing).Ok?
    ensures var h' := New(h, key, id, allow, token, sizing).value;
      Count(Lines(h'.env), k) == Count(Lines(h.env), k) + if k == key(id) then 1 else 0
  {
    hide Test;
    var minted := Minted(key(id), token);
    MintedHas(key(id), token, k);
    BasedLines(h.env, minted);
    CountAppend(Body(h.env), [minted, ""], k);
    CountAppend(Body(h.env), [""], k);
    EmptyLineHasNone(k);
    assert [minted, ""][1..] == [""] && [""][1..] == [];
    SameCount(h.env, k);
  }

  /** A final newline adds no token line. */
  lemma SameCount(env: string, k: string)
    ensures Count(Lines(Based(env)), k) == Count(Lines(env), k)
  {
    hide Test;
    if env != "" && env[|env| - 1] != '\n' {
      assert env + "\n" + "" == env + "\n";
      LinesAppend(env, "");
      CountAppend(Lines(env), [""], k);
      EmptyLineHasNone(k);
      assert [""][1..] == [];
    }
  }

  lemma {:induction false} DroppedNew(entries: seq<Entry>, e: Entry)
    requires !InManifest(entries, e.id)
    ensures Dropped(entries + [e], e.id) == entries && InManifest(entries + [e], e.id)
    decreases |entries|
  {
    assert (entries + [e])[|entries|] == e;
    if entries == [] {
      assert entries + [e] == [e] && [e][1..] == [];
    } else {
      assert (entries + [e])[1..] == entries[1..] + [e];
      assert entries[0].id != e.id;
      assert !InManifest(entries[1..], e.id) by {
        forall i | 0 <= i < |entries[1..]| ensures entries[1..][i].id != e.id { assert entries[1..][i] == entries[i + 1]; }
      }
      DroppedNew(entries[1..], e);
      assert [entries[0]] + entries[1..] == entries;
    }
  }

  /** Dropping the minted line from an env text that had no such token gives the text back, with its newline. */
  lemma MintThenDrop(env: string, k: string, token: string)
    requires Keyish(k) && Hex(token) && !Test(env, true, k)
    ensures var env' := Based(env) + Minted(k, token) + "\n";
      Test(env', true, k) && Joined(Kept(Lines(env'), k)) == Based(env)
  {
    hide Test, Lines, Body, Based, Minted, Joined, Keyish;
    var minted := Minted(k, token);
    MintedHas(k, token, k);
    BasedLines(env, minted);
    TextHasIt(env, k);
    SameCount(env, k);
    CountAppend(Body(env), [""], k);
    CountIsSome(Body(env), k);
    CountAppend(Body(env), [minted, ""], k);
    EmptyLineHasNone(k);
    assert [minted, ""][1..] == [""] && [""][1..] == [];
    assert Kept([minted, ""], k) == [""];
    TextHasIt(Based(env) + minted + "\n", k);
  }

  /** `keysNew` then `keysRevoke`: the manifest is restored, and the env text up to a final newline. */
  lemma NewThenRevoke(h: Host, key: string -> string, id: string, allow: seq<string>, token: string, sizing: Sizing)
    requires Keyish(key(id)) && Hex(token) && New(h, key, id, allow, token, sizing).Ok?
    ensures var h' := New(h, key, id, allow, token, sizing).value;
      Revoke(h', key, id) == Ok(Host(h.entries, Based(h.env), h.keychain - {id}))
  {
    hide Test, Based, Minted, Lines, Joined, Kept, Keyish;
    DroppedNew(h.entries, Entry(id, if allow == [] then ["*"] else allow));
    MintThenDrop(h.env, key(id), token);
    assert h.keychain[id := token] - {id} == h.keychain - {id};
  }

  // -- consistency ----------------------------------------------------------------------------------

  predicate Owns(entries: seq<Entry>, key: string -> string, k: string) {
    exists i | 0 <= i < |entries| :: key(entries[i].id) == k
  }

  predicate DistinctKeys(entries: seq<Entry>, key: string -> string) {
    forall i, j | 0 <= i < j < |entries| :: key(entries[i].id) != key(entries[j].id)
  }

  /** Distinct env keys, one token line per consumer, no token line without a consumer, no line shared. */
  ghost predicate Consistent(h: Host, key: string -> string) {
    && DistinctKeys(h.entries, key)
    && (forall id: string :: Count(Lines(h.env), key(id)) == if Owns(h.entries, key, key(id)) then 1 else 0)
    && (forall i, a: string, b: string | 0 <= i < |Lines(h.env)| && Test(Lines(h.env)[i], true, key(a)) && Test(Lines(h.env)[i], true, key(b)) :: key(a) == key(b))
  }

  /** Nothing a consumer could authenticate with is left without a manifest entry. */
  ghost predicate NoOrphan(entries: seq<Entry>, env: string, key: string -> string) {
    forall id: string :: Test(env, true, key(id)) ==> Owns(entries, key, key(id))
  }

  lemma {:induction false} KeptCounts(lines: seq<string>, gone: string, k: string)
    requires forall i | 0 <= i < |lines| :: !(Test(lines[i], true, gone) && Test(lines[i], true, k)) || k == gone
    ensures Count(Kept(lines, gone), k) == if k == gone then 0 else Count(lines, k)
    decreases |lines|
  {
    if lines != [] {
      forall i | 0 <= i < |lines[1..]| ensures !(Test(lines[1..][i], true, gone) && Test(lines[1..][i], true, k)) || k == gone {
        assert lines[1..][i] == lines[i + 1];
      }
      KeptCounts(lines[1..], gone, k);
      CountAppend([lines[0]], Kept(lines[1..], gone), k);
      assert [lines[0]][1..] == [];
      assert !(Test(lines[0], true, gone) && Test(lines[0], true, k)) || k == gone;
      assert [] + Kept(lines[1..], gone) == Kept(lines[1..], gone);
    }
  }

  lemma {:induction false} KeptLines(lines: seq<string>, gone: string)
    ensures forall l | l in Kept(lines, gone) :: l in lines && !Test(l, true, gone)
    ensures forall i | 0 <= i < |lines| && !Test(lines[i], true, gone) :: lines[i] in Kept(lines, gone)
    decreases |lines|
  {
    if lines != [] {
      KeptLines(lines[1..], gone);
      forall i | 0 <= i < |lines| && !Test(lines[i], true, gone) ensures lines[i] in Kept(lines, gone) {
        if i > 0 { assert lines[i] == lines[1..][i - 1]; }
      }
    }
  }

  /** The lines left after a revocation, an empty file being one empty line. */
  lemma JoinedLines(env: string, gone: string)
    ensures var kept := Kept(Lines(env), gone);
      Lines(Joined(kept)) == if kept == [] then [""] else kept
  {
    hide Test;
    UnlinesLines(env);
    KeptLines(Lines(env), gone);
    var kept := Kept(Lines(env), gone);
    if kept != [] {
      forall i | 0 <= i < |kept| ensures '\n' !in kept[i] {
        assert kept[i] in Lines(env);
      }
      LinesUnlines(kept);
    }
  }

  lemma JoinedCounts(env: string, gone: string, k: string)
    ensures Count(Lines(Joined(Kept(Lines(env), gone))), k) == Count(Kept(Lines(env), gone), k)
  {
    hide Test;
    JoinedLines(env, gone);
    EmptyLineHasNone(k);
    assert [""][1..] == [];
  }

  /** A revocation keeps another key's token exactly when some line carries it without the revoked one. */
  lemma RevokeKeepsTokenIff(h: Host, key: string -> string, id: string, k: string)
    requires Keyish(key(id)) && Keyish(k) && Revoke(h, key, id).Ok?
    ensures Test(Revoke(h, key, id).value.env, true, k) <==>
      exists i :: 0 <= i < |Lines(h.env)| && Test(Lines(h.env)[i], true, k) && !Test(Lines(h.env)[i], true, key(id))
  {
    hide Test;
    var env' := Revoke(h, key, id).value.env;
    var lines := Lines(h.env);
    TextHasIt(env', k);
    TextHasIt(h.env, key(id));
    CountIsSome(lines, key(id));
    if Test(h.env, true, key(id)) {
      JoinedCounts(h.env, key(id), k);
      KeptLines(lines, key(id));
      var kept := Kept(lines, key(id));
      CountIsSome(kept, k);
      if exists i :: 0 <= i < |lines| && Test(lines[i], true, k) && !Test(lines[i], true, key(id)) {
        var i :| 0 <= i < |lines| && Test(lines[i], true, k) && !Test(lines[i], true, key(id));
        assert lines[i] in kept;
      }
      if Count(kept, k) > 0 {
        var j :| 0 <= j < |kept| && Test(kept[j], true, k);
        assert kept[j] in lines;
      }
    } else {
      CountIsSome(lines, k);
    }
  }

  /** A carriage return ends a line for the match, but not for the split. */
  lemma TokensShareALine()
    ensures var env := "A=1\rB=2"; Lines(env) == [env] && Test(env, true, "A") && Test(env, true, "B")
  {
    hide Test;
    var env := "A=1\rB=2";
    LineOfItself(env);
    assert "A" + "=" == "A=" && "B" + "=" == "B=";
    assert env[0..] == env && "A=" <= env && StartsLine(env, 0);
    assert env[4..] == "B=2" && "B=" <= env[4..] && StartsLine(env, 4);
    TestIsHasToken(env, "A");
    TestIsHasToken(env, "B");
  }

  /** So revoking one of two consumers whose tokens share a line loses the other's token too. */
  lemma SharedLineIsLost(key: string -> string, a: string, b: string)
    requires key(a) == "A" && key(b) == "B"
    ensures var h := Host([Entry(a, ["*"]), Entry(b, ["*"])], "A=1\rB=2", map[]);
      Test(h.env, true, "B") && Revoke(h, key, a).Ok? && !Test(Revoke(h, key, a).value.env, true, "B")
  {
    hide Test, Lines, Kept, Joined;
    var h := Host([Entry(a, ["*"]), Entry(b, ["*"])], "A=1\rB=2", map[]);
    TokensShareALine();
    assert h.entries[0].id == a;
    RevokeKeepsTokenIff(h, key, a, "B");
  }

  // -- consistency is kept --------------------------------------------------------------------------

  lemma OwnsAppend(entries: seq<Entry>, e: Entry, key: string -> string, k: string)
    ensures Owns(entries + [e], key, k) <==> Owns(entries, key, k) || key(e.id) == k
  {
    assert (entries + [e])[|entries|] == e;
    forall i | 0 <= i < |entries| ensures (entries + [e])[i] == entries[i] {
    }
  }

  lemma UnmatchedIsUnowned(h: Host, key: string -> string, k: string)
    requires Keyish(k) && Count(Lines(h.env), k) == if Owns(h.entries, key, k) then 1 else 0
    ensures Test(h.env, true, k) <==> Owns(h.entries, key, k)
  {
    hide Test;
    TextHasIt(h.env, k);
  }

  lemma BodyLines(env: string)
    ensures forall l | l in Body(env) :: l in Lines(env)
  {
    if env != "" && env[|env| - 1] == '\n' {
      var front := env[..|env| - 1];
      assert env == front + "\n" + "";
      LinesAppend(front, "");
    }
  }

  /** A completed mint keeps keys distinct, one token line per consumer and no stray token. */
  lemma NewKeepsConsistent(h: Host, key: string -> string, id: string, allow: seq<string>, token: string, sizing: Sizing)
    requires Keys(key) && Hex(token) && Consistent(h, key) && New(h, key, id, allow, token, sizing).Ok?
    ensures Consistent(New(h, key, id, allow, token, sizing).value, key)
  {
    hide Test, Lines, Count, Owns;
    var h' := New(h, key, id, allow, token, sizing).value;
    var e := Entry(id, if allow == [] then ["*"] else allow);
    UnmatchedIsUnowned(h, key, key(id));
    forall i, j | 0 <= i < j < |h'.entries| ensures key(h'.entries[i].id) != key(h'.entries[j].id) {
      if j == |h.entries| { assert h'.entries[i] == h.entries[i]; }
    }
    forall x: string ensures Count(Lines(h'.env), key(x)) == if Owns(h'.entries, key, key(x)) then 1 else 0 {
      NewCounts(h, key, id, allow, token, sizing, key(x));
      OwnsAppend(h.entries, e, key, key(x));
    }
    BasedLines(h.env, Minted(key(id), token)) by { MintedHas(key(id), token, key(id)); }
    BodyLines(h.env);
    forall i, a: string, b: string | 0 <= i < |Lines(h'.env)| && Test(Lines(h'.env)[i], true, key(a)) && Test(Lines(h'.env)[i], true, key(b))
      ensures key(a) == key(b)
    {
      var line := Lines(h'.env)[i];
      EmptyLineHasNone(key(a));
      MintedHas(key(id), token, key(a));
      MintedHas(key(id), token, key(b));
      if i < |Body(h.env)| {
        assert line in Lines(h.env);
        var j :| 0 <= j < |Lines(h.env)| && Lines(h.env)[j] == line;
      }
    }
  }

  lemma {:induction false} DroppedKeeps(entries: seq<Entry>, id: string)
    ensures forall e | e in Dropped(entries, id) :: e in entries && e.id != id
    ensures !InManifest(entries, id) ==> Dropped(entries, id) == entries
    decreases |entries|
  {
    if entries != [] {
      DroppedKeeps(entries[1..], id);
      ManifestFirst(entries, id);
      assert entries == [entries[0]] + entries[1..];
    }
  }

  lemma RestDistinct(entries: seq<Entry>, key: string -> string)
    requires entries != [] && DistinctKeys(entries, key)
    ensures DistinctKeys(entries[1..], key)
  {
    var rest := entries[1..];
    forall i, j | 0 <= i < j < |rest| ensures key(rest[i].id) != key(rest[j].id) {
      assert rest[i] == entries[i + 1] && rest[j] == entries[j + 1];
    }
  }

  lemma {:induction false} DroppedDistinct(entries: seq<Entry>, id: string, key: string -> string)
    requires DistinctKeys(entries, key)
    ensures DistinctKeys(Dropped(entries, id), key)
    decreases |entries|
  {
    if entries != [] {
      RestDistinct(entries, key);
      DroppedDistinct(entries[1..], id, key);
      DroppedKeeps(entries[1..], id);
      if entries[0].id != id {
        var tail := Dropped(entries[1..], id);
        var d := [entries[0]] + tail;
        forall i, j | 0 <= i < j < |d| ensures key(d[i].id) != key(d[j].id) {
          assert d[j] == tail[j - 1] && tail[j - 1] in entries[1..];
          var m :| 0 <= m < |entries[1..]| && entries[1..][m] == tail[j - 1];
          assert entries[m + 1] == d[j];
          if i > 0 {
            assert d[i] == tail[i - 1] && key(tail[i - 1].id) != key(tail[j - 1].id);
          } else {
            assert d[i] == entries[0] && key(entries[0].id) != key(entries[m + 1].id);
          }
        }
      }
    }
  }

  lemma {:induction false} DroppedOwns(entries: seq<Entry>, id: string, key: string -> string, k: string)
    requires InManifest(entries, id) && DistinctKeys(entries, key)
    ensures Owns(Dropped(entries, id), key, k) <==> Owns(entries, key, k) && k != key(id)
    decreases |entries|
  {
    hide InManifest, Owns;
    ManifestSome(entries, id);
    var rest := entries[1..];
    RestDistinct(entries, key);
    OwnsFirst(entries, key, k);
    ManifestFirst(entries, id);
    if entries[0].id == id {
      NoneOwnsFirst(entries, key, id);
      DroppedKeeps(rest, id);
      assert Dropped(entries, id) == [] + rest == rest;
    } else {
      DroppedOwns(rest, id, key, k);
      var d := Dropped(rest, id);
      OwnsFirst([entries[0]] + d, key, k);
      assert ([entries[0]] + d)[1..] == d;
      FirstIsNot(entries, key, id);
    }
  }

  lemma ManifestSome(entries: seq<Entry>, id: string)
    requires InManifest(entries, id)
    ensures entries != []
  {
  }

  /** The first entry's key is not the key of an id behind it. */
  lemma FirstIsNot(entries: seq<Entry>, key: string -> string, id: string)
    requires entries != [] && InManifest(entries[1..], id)
    requires DistinctKeys(entries, key)
    ensures key(entries[0].id) != key(id)
  {
    var i :| 0 <= i < |entries[1..]| && entries[1..][i].id == id;
    assert entries[i + 1] == entries[1..][i];
  }

  lemma OwnsFirst(entries: seq<Entry>, key: string -> string, k: string)
    requires entries != []
    ensures Owns(entries, key, k) <==> key(entries[0].id) == k || Owns(entries[1..], key, k)
  {
    if Owns(entries[1..], key, k) {
      var i :| 0 <= i < |entries[1..]| && key(entries[1..][i].id) == k;
      assert entries[i + 1] == entries[1..][i];
    }
    if Owns(entries, key, k) {
      var i :| 0 <= i < |entries| && key(entries[i].id) == k;
      if i > 0 { assert entries[1..][i - 1] == entries[i]; }
    }
  }

  lemma ManifestFirst(entries: seq<Entry>, id: string)
    requires entries != []
    ensures InManifest(entries, id) <==> entries[0].id == id || InManifest(entries[1..], id)
  {
    if InManifest(entries[1..], id) {
      var i :| 0 <= i < |entries[1..]| && entries[1..][i].id == id;
      assert entries[i + 1] == entries[1..][i];
    }
    if InManifest(entries, id) {
      var i :| 0 <= i < |entries| && entries[i].id == id;
      if i > 0 { assert entries[1..][i - 1] == entries[i]; }
    }
  }

  /** With keys distinct, nobody behind the first entry has its key. */
  lemma NoneOwnsFirst(entries: seq<Entry>, key: string -> string, id: string)
    requires entries != [] && entries[0].id == id
    requires DistinctKeys(entries, key)
    ensures !Owns(entries[1..], key, key(id)) && !InManifest(entries[1..], id)
  {
    forall i | 0 <= i < |entries[1..]| ensures key(entries[1..][i].id) != key(id) {
      assert entries[1..][i] == entries[i + 1];
    }
  }

  lemma OwnedInManifest(h: Host, key: string -> string, id: string)
    requires Keyish(key(id)) && Consistent(h, key) && Revoke(h, key, id).Ok?
    ensures InManifest(h.entries, id) && Test(h.env, true, key(id))
  {
    hide Test, Lines, Count;
    UnmatchedIsUnowned(h, key, key(id));
  }

  lemma RevokeKeepsConsistent(h: Host, key: string -> string, id: string)
    requires Keys(key) && Consistent(h, key) && Revoke(h, key, id).Ok?
    ensures Consistent(Revoke(h, key, id).value, key)
  {
    hide Test, Lines, Count, Owns, Keyish, Kept, Joined;
    OwnedInManifest(h, key, id);
    var h' := Revoke(h, key, id).value;
    var lines := Lines(h.env);
    DroppedDistinct(h.entries, id, key);
    forall x: string ensures Count(Lines(h'.env), key(x)) == if Owns(h'.entries, key, key(x)) then 1 else 0 {
      DroppedOwns(h.entries, id, key, key(x));
      assert forall i | 0 <= i < |lines| :: !(Test(lines[i], true, key(id)) && Test(lines[i], true, key(x))) || key(x) == key(id);
      JoinedCounts(h.env, key(id), key(x));
      KeptCounts(lines, key(id), key(x));
    }
    JoinedLines(h.env, key(id));
    KeptLines(lines, key(id));
    forall i, a: string, b: string | 0 <= i < |Lines(h'.env)| && Test(Lines(h'.env)[i], true, key(a)) && Test(Lines(h'.env)[i], true, key(b))
      ensures key(a) == key(b)
    {
      EmptyLineHasNone(key(a));
      var line := Lines(h'.env)[i];
      assert line in lines;
      var j :| 0 <= j < |lines| && lines[j] == line;
    }
    assert (forall id: string :: Count(Lines(h'.env), key(id)) == if Owns(h'.entries, key, key(id)) then 1 else 0);
  }

  datatype Edit = Mint(id: string, allow: seq<string>, token: string, sizing: Sizing) | Drop(id: string)

  function Done(h: Host, key: string -> string, e: Edit): Host {
    var r := match e case Mint(id, allow, token, sizing) => New(h, key, id, allow, token, sizing) case Drop(id) => Revoke(h, key, id);
    if r.Ok? then r.value else h
  }

  function AllDone(h: Host, key: string -> string, es: seq<Edit>): Host
    decreases |es|
  {
    if es == [] then h else AllDone(Done(h, key, es[0]), key, es[1..])
  }

  /** Every sequence of completed edits keeps the two files consistent. */
  lemma {:induction false} EditsKeepConsistent(h: Host, key: string -> string, es: seq<Edit>)
    requires Keys(key) && Consistent(h, key) && forall i | 0 <= i < |es| && es[i].Mint? :: Hex(es[i].token)
    ensures Consistent(AllDone(h, key, es), key)
    decreases |es|
  {
    hide Consistent, Keys, New, Revoke;
    if es != [] {
      match es[0] {
        case Mint(id, allow, token, sizing) =>
          if New(h, key, id, allow, token, sizing).Ok? { NewKeepsConsistent(h, key, id, allow, token, sizing); }
        case Drop(id) =>
          if Revoke(h, key, id).Ok? { RevokeKeepsConsistent(h, key, id); }
      }
      forall i | 0 <= i < |es[1..]| && es[1..][i].Mint? ensures Hex(es[1..][i].token) { assert es[1..][i] == es[i + 1]; }
      EditsKeepConsistent(Done(h, key, es[0]), key, es[1..]);
    }
  }

  /** A mint interrupted after any of its writes leaves no token line without a manifest entry. */
  lemma MintPrefixesHaveNoOrphan(h: Host, key: string -> string, id: string, allow: seq<string>, token: string, sizing: Sizing)
    requires Keys(key) && Hex(token) && NoOrphan(h.entries, h.env, key) && New(h, key, id, allow, token, sizing).Ok?
    ensures var h' := New(h, key, id, allow, token, sizing).value;
      NoOrphan(h'.entries, h.env, key) && NoOrphan(h'.entries, h'.env, key)
  {
    hide Test, Lines, Count, Owns;
    var h' := New(h, key, id, allow, token, sizing).value;
    forall x: string ensures (Test(h.env, true, key(x)) || Test(h'.env, true, key(x))) ==> Owns(h'.entries, key, key(x)) {
      OwnsAppend(h.entries, Entry(id, if allow == [] then ["*"] else allow), key, key(x));
      NewCounts(h, key, id, allow, token, sizing, key(x));
      TextHasIt(h.env, key(x));
      TextHasIt(h'.env, key(x));
    }
  }

  /** The other order would not do: the env file first leaves an orphan at once. */
  lemma EnvFirstLeavesAnOrphan(h: Host, key: string -> string, id: string, allow: seq<string>, token: string, sizing: Sizing)
    requires Keys(key) && Hex(token) && New(h, key, id, allow, token, sizing).Ok?
    ensures !NoOrphan(h.entries, New(h, key, id, allow, token, sizing).value.env, key)
  {
    hide Test, Lines, Count;
    var h' := New(h, key, id, allow, token, sizing).value;
    NewCounts(h, key, id, allow, token, sizing, key(id));
    TextHasIt(h'.env, key(id));
  }
}

/** The production host as the two commands write it: manifest, then env file, then keychain. */
module ProdHost {
  import opened Common
  import opened M = ConsumerKeys

  class ProdFiles {
    var entries: seq<Entry>
    var env: string
    var keychain: map<string, string>
    /** What the host held after each write. */
    ghost var trail: seq<Host>

    ghost function View(): Host reads this { Host(entries, env, keychain) }

    constructor (entries: seq<Entry>, env: string, keychain: map<string, string>)
      ensures View() == Host(entries, env, keychain) && trail == []
    {
      this.entries, this.env, this.keychain, trail := entries, env, keychain, [];
    }

    /** Nothing is written unless every check passed; the manifest is written first. */
    method KeysNew(key: string -> string, id: string, allow: seq<string>, token: string, sizing: Sizing) returns (ok: bool)
      modifies this
      ensures ok == New(old(View()), key, id, allow, token, sizing).Ok?
      ensures !ok ==> View() == old(View()) && trail == old(trail)
      ensures ok ==>
        && View() == New(old(View()), key, id, allow, token, sizing).value
        && trail == old(trail) + [old(View()).(entries := entries), old(View()).(entries := entries, env := env), View()]
    {
      if !ValidId(id) || InManifest(entries, id) || Collides(entries, key, id) { return false; }
      if Test(env, true, key(id)) || FloorRefuses(|entries| + 1, sizing) { return false; }
      entries := entries + [Entry(id, if allow == [] then ["*"] else allow)];
      trail := trail + [View()];
      env := Based(env) + Minted(key(id), token) + "\n";
      trail := trail + [View()];
      keychain := keychain[id := token];
      trail := trail + [View()];
      ok := true;
    }

    /** Revocation lands in the manifest first, so an interruption can leave only the env line behind. */
    method KeysRevoke(key: string -> string, id: string) returns (ok: bool)
      modifies this
      ensures ok == Revoke(old(View()), key, id).Ok?
      ensures !ok ==> View() == old(View()) && trail == old(trail)
      ensures ok ==>
        && View() == Revoke(old(View()), key, id).value
        && old(trail) <= trail && |trail| > |old(trail)|
        && forall i | |old(trail)| <= i < |trail| :: !InManifest(trail[i].entries, id)
    {
      var inManifest, inEnv := InManifest(entries, id), Test(env, true, key(id));
      if !inManifest && !inEnv { return false; }
      if !inManifest && Collides(entries, key, id) { return false; }
      if inManifest {
        DroppedKeeps(entries, id);
        entries := Dropped(entries, id);
        trail := trail + [View()];
      }
      if inEnv {
        env := Joined(Kept(Lines(env), key(id)));
        trail := trail + [View()];
      }
      keychain := keychain - {id};
      trail := trail + [View()];
      ok := true;
    }
  }
}
