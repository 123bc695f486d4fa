/** Which argument lists the parser takes, and what it makes of them, without its index: a grammar. */
module CliGrammar {
  import opened Common
  import opened CliArgs

  // -- rule lists -----------------------------------------------------------------------------------

  /** The white space around a value is exactly what trimming takes off. */
  lemma {:induction false} TrimIsExact(a: string, t: string, b: string)
    requires (forall c | c in a :: JsSpace(c)) && (forall c | c in b :: JsSpace(c))
    requires t != "" ==> !JsSpace(t[0]) && !JsSpace(t[|t| - 1])
    ensures Trim(a + t + b) == t
    decreases |a| + |b|
  {
    hide JsSpace;
    var s := a + t + b;
    if a != "" {
      assert s[0] == a[0] && a[0] in a && s[1..] == a[1..] + t + b;
      TrimIsExact(a[1..], t, b);
    } else if b != "" {
      var last := b[|b| - 1];
      assert last in b && s[|s| - 1] == last && s[..|s| - 1] == a + t + b[..|b| - 1];
      if t == "" {
        assert s[0] == b[0] && b[0] in b && s[1..] == "" + t + b[1..];
        TrimIsExact("", t, b[1..]);
      } else {
        assert s[0] == t[0];
        TrimIsExact(a, t, b[..|b| - 1]);
      }
    } else {
      assert s == t;
    }
  }

  /** A list is cut at its commas and nowhere else. */
  lemma {:induction false} SplitIsExact(s: string)
    ensures JoinRules(Split(s, ',')) == s
    ensures forall i | 0 <= i < |Split(s, ',')| :: ',' !in Split(s, ',')[i]
    decreases |s|
  {
    hide IndexOf;
    var i := IndexOf(s, ',');
    if i.Some? {
      var first, rest := s[..i.value], s[i.value + 1..];
      SplitIsExact(rest);
      var parts := Split(rest, ',');
      assert Split(s, ',') == [first] + parts && ([first] + parts)[1..] == parts;
      assert s == first + "," + rest;
    }
  }

  /** The places, from `first` on, of the pieces that trim to something. */
  function Kept(parts: seq<string>, first: nat): seq<nat>
    decreases |parts| - first
  {
    if first >= |parts| then [] else (if Trim(parts[first]) == "" then [] else [first]) + Kept(parts, first + 1)
  }

  lemma {:induction false} KeptInOrder(parts: seq<string>, first: nat)
    ensures forall k | 0 <= k < |Kept(parts, first)| :: first <= Kept(parts, first)[k] < |parts|
    ensures forall j, k | 0 <= j < k < |Kept(parts, first)| :: Kept(parts, first)[j] < Kept(parts, first)[k]
    ensures forall i: nat | first <= i < |parts| :: i in Kept(parts, first) <==> Trim(parts[i]) != ""
    decreases |parts| - first
  {
    hide Trim;
    if first < |parts| { KeptInOrder(parts, first + 1); }
  }

  /** The rules of a list: its trimmed pieces that are not empty, each once, in their order. */
  lemma {:induction false} RulesAre(parts: seq<string>, first: nat)
    requires first <= |parts|
    ensures var at := Kept(parts, first);
      |Rules(parts[first..])| == |at| && forall k | 0 <= k < |at| :: at[k] < |parts| && Rules(parts[first..])[k] == Trim(parts[at[k]])
    decreases |parts| - first
  {
    hide Trim;
    KeptInOrder(parts, first);
    if first < |parts| {
      RulesAre(parts, first + 1);
      assert parts[first..][0] == parts[first] && parts[first..][1..] == parts[first + 1..];
    }
  }

  // -- the grammar ----------------------------------------------------------------------------------

  datatype Piece = Plain(p: string) | Bare(name: string) | Joined(name: string, value: string) | Spaced(name: string, value: string)

  predicate TakesValue(table: Spec, name: string, value: string) {
    && '=' !in name && Lookup(table, name).Some? && Lookup(table, name).value.takesValue
    && value != "" && (Lookup(table, name).value.multi ==> Rules(Split(value, ',')) != [])
  }

  /** A piece the table allows. */
  predicate Fits(table: Spec, piece: Piece) {
    match piece
    case Plain(p) => !IsFlag(p)
    case Bare(name) => '=' !in name && Lookup(table, name).Some? && !Lookup(table, name).value.takesValue
    case Joined(name, value) => TakesValue(table, name, value)
    case Spaced(name, value) => TakesValue(table, name, value) && !IsFlag(value)
  }

  function Spell(piece: Piece): seq<string> {
    match piece
    case Plain(p) => [p]
    case Bare(name) => ["--" + name]
    case Joined(name, value) => ["--" + name + "=" + value]
    case Spaced(name, value) => ["--" + name, value]
  }

  function Valued(flags: Flags, multi: bool, name: string, value: string): Flags {
    if multi then flags.(allow := Some((if flags.allow.Some? then flags.allow.value else []) + Rules(Split(value, ','))))
    else flags.(values := flags.values[name := value])
  }

  /** What a piece says; a list flag adds its rules to those already there, `__proto__` says nothing. */
  function Meaning(table: Spec, acc: Scanned, piece: Piece): Scanned
    requires Fits(table, piece)
  {
    match piece
    case Plain(p) => acc.(positionals := acc.positionals + [p])
    case Bare(name) => if name == "__proto__" then acc else acc.(flags := acc.flags.(bools := acc.flags.bools + {name}))
    case Joined(name, value) => acc.(flags := Valued(acc.flags, Lookup(table, name).value.multi, name, value))
    case Spaced(name, value) => acc.(flags := Valued(acc.flags, Lookup(table, name).value.multi, name, value))
  }

  predicate AllFit(table: Spec, pieces: seq<Piece>) { forall i | 0 <= i < |pieces| :: Fits(table, pieces[i]) }

  function SpellAll(pieces: seq<Piece>): seq<string> {
    if pieces == [] then [] else Spell(pieces[0]) + SpellAll(pieces[1..])
  }

  function MeanAll(table: Spec, acc: Scanned, pieces: seq<Piece>): Scanned
    requires AllFit(table, pieces)
    decreases |pieces|
  {
    if pieces == [] then acc
    else
      assert forall i | 0 <= i < |pieces[1..]| :: pieces[1..][i] == pieces[i + 1];
      MeanAll(table, Meaning(table, acc, pieces[0]), pieces[1..])
  }

  // -- everything it spells is taken ----------------------------------------------------------------

  lemma PieceReads(table: Spec, piece: Piece, rest: seq<string>, acc: Scanned)
    requires Fits(table, piece)
    ensures ScanFrom(table, Spell(piece) + rest, 0, acc) == ScanFrom(table, rest, 0, Meaning(table, acc, piece))
  {
    hide Rules, Split;
    var args := Spell(piece) + rest;
    var n := |Spell(piece)|;
    assert args[n..] == rest;
    ScanShift(table, args, n, n, Meaning(table, acc, piece));
    match piece {
      case Plain(p) =>
      case Bare(name) =>
        NoIndex("--" + name, '=');
        assert args[0][2..] == name;
      case Joined(name, value) => ValueReads(name, value);
      case Spaced(name, value) =>
        NoIndex("--" + name, '=');
        assert args[0][2..] == name && args[1] == value;
    }
  }

  /** Whatever the grammar spells parses to what it means. */
  lemma {:induction false} SpelledIsRead(table: Spec, pieces: seq<Piece>, acc: Scanned)
    requires AllFit(table, pieces)
    ensures ScanFrom(table, SpellAll(pieces), 0, acc) == Ok(MeanAll(table, acc, pieces))
    decreases |pieces|
  {
    hide Fits, Meaning, Spell, ScanFrom;
    if pieces == [] {
      NothingScans(table, acc);
    } else {
      assert Fits(table, pieces[0]);
      assert AllFit(table, pieces[1..]) by { assert forall i | 0 <= i < |pieces[1..]| :: pieces[1..][i] == pieces[i + 1]; }
      PieceReads(table, pieces[0], SpellAll(pieces[1..]), acc);
      SpelledIsRead(table, pieces[1..], Meaning(table, acc, pieces[0]));
    }
  }

  lemma NothingScans(table: Spec, acc: Scanned)
    ensures ScanFrom(table, [], 0, acc) == Ok(acc)
  {
  }

  // -- and nothing else is --------------------------------------------------------------------------

  /** The argument at the front of an accepted list is one piece the table allows. */
  lemma FirstPiece(table: Spec, args: seq<string>, acc: Scanned) returns (piece: Piece)
    requires args != [] && ScanFrom(table, args, 0, acc).Ok?
    ensures Fits(table, piece) && |Spell(piece)| <= |args| && Spell(piece) == args[..|Spell(piece)|]
  {
    hide ScanFrom, Fits;
    if !IsFlag(args[0]) {
      piece := Plain(args[0]);
      PlainFits(table, args[0]);
    } else if IndexOf(args[0], '=').None? {
      piece := FirstApart(table, args, acc);
    } else {
      piece := FirstJoined(table, args, acc);
    }
  }

  lemma PlainFits(table: Spec, p: string)
    requires !IsFlag(p)
    ensures Fits(table, Plain(p))
  {
  }

  lemma FirstApart(table: Spec, args: seq<string>, acc: Scanned) returns (piece: Piece)
    requires args != [] && IsFlag(args[0]) && IndexOf(args[0], '=').None? && ScanFrom(table, args, 0, acc).Ok?
    ensures Fits(table, piece) && |Spell(piece)| <= |args| && Spell(piece) == args[..|Spell(piece)|]
  {
    hide Rules, Split, IndexOf;
    var name := args[0][2..];
    NameIsRead(args[0]);
    assert args[0] == "--" + name;
    if Lookup(table, name).Some? && !Lookup(table, name).value.takesValue {
      piece := Bare(name);
    } else {
      piece := Spaced(name, if 1 < |args| && !IsFlag(args[1]) then args[1] else "");
    }
  }

  lemma FirstJoined(table: Spec, args: seq<string>, acc: Scanned) returns (piece: Piece)
    requires args != [] && IsFlag(args[0]) && IndexOf(args[0], '=').Some? && ScanFrom(table, args, 0, acc).Ok?
    ensures Fits(table, piece) && |Spell(piece)| <= |args| && Spell(piece) == args[..|Spell(piece)|]
  {
    hide Rules, Split, IndexOf;
    var arg := args[0];
    var eq := IndexOf(arg, '=').value;
    NameIsRead(arg);
    var name, value := arg[2..eq], arg[eq + 1..];
    assert arg == "--" + name + "=" + value;
    assert forall c | c in name :: c in arg[..eq];
    piece := Joined(name, value);
  }

  /** An argument list is taken exactly when the grammar spells it, and its reading is then the grammar's. */
  lemma {:induction false} TakenIsSpelled(table: Spec, args: seq<string>, acc: Scanned) returns (pieces: seq<Piece>)
    requires ScanFrom(table, args, 0, acc).Ok?
    ensures AllFit(table, pieces) && SpellAll(pieces) == args
    decreases |args|
  {
    hide Fits, Meaning, ScanFrom;
    if args == [] {
      pieces := [];
    } else {
      var piece := FirstPiece(table, args, acc);
      var n := |Spell(piece)|;
      assert args == Spell(piece) + args[n..];
      PieceReads(table, piece, args[n..], acc);
      var rest := TakenIsSpelled(table, args[n..], Meaning(table, acc, piece));
      pieces := [piece] + rest;
      assert pieces[1..] == rest;
    }
  }

  lemma TakenIff(table: Spec, args: seq<string>, acc: Scanned)
    ensures ScanFrom(table, args, 0, acc).Ok? <==> exists pieces :: AllFit(table, pieces) && SpellAll(pieces) == args
  {
    hide ScanFrom, Fits;
    if ScanFrom(table, args, 0, acc).Ok? {
      var pieces := TakenIsSpelled(table, args, acc);
    }
    if exists pieces :: AllFit(table, pieces) && SpellAll(pieces) == args {
      var pieces :| AllFit(table, pieces) && SpellAll(pieces) == args;
      SpelledIsRead(table, pieces, acc);
    }
  }
}
