/**
 `parseCliArgs` of `src/cli/args.ts`: argv in, an invocation or a usage error out; and the printing of an
 invocation as argv, which parsing undoes.

 The tables are JavaScript objects, so a name every object inherits is found in them too. Among flags it
 reads as a boolean flag; as a subcommand it is accepted, and the inherited value then stands in for the
 flag table. Which names that value answers to depends on the JavaScript engine and is a parameter.
 */
module CliArgs {
  import opened Common

  datatype FlagSpec = FlagSpec(takesValue: bool, multi: bool)

  const VALUE := FlagSpec(true, false)
  const BOOL := FlagSpec(false, false)
  const LIST := FlagSpec(true, true)

  type Table = map<string, FlagSpec>

  const INHERITED: set<string> := {
    "constructor", "toString", "toLocaleString", "valueOf", "hasOwnProperty", "isPrototypeOf", "propertyIsEnumerable",
    "__proto__", "__defineGetter__", "__defineSetter__", "__lookupGetter__", "__lookupSetter__"
  }

  /** An object used as a flag table: what it declares, and every other name it answers to. */
  datatype Spec = Spec(own: Table, others: set<string>)

  function Declared(table: Table): Spec { Spec(table, INHERITED) }

  /** `flagSpecs[name]`: an undeclared member is truthy and has no `takesValue`. */
  function Lookup(table: Spec, name: string): Option<FlagSpec> {
    if name in table.own then Some(table.own[name]) else if name in table.others then Some(BOOL) else None
  }

  /** The subcommands of a command, or its own flags when it has none. */
  datatype Command = WithSubcommands(subs: map<string, Table>) | WithFlags(flags: Table)

  function CommandOf(word: string): Option<Command> {
    match word
    case "keys" => Some(WithSubcommands(map["new" := map["allow" := LIST, "apply" := BOOL], "list" := map[], "revoke" := map["apply" := BOOL]]))
    case "connect" => Some(WithFlags(map["full" := BOOL]))
    case "status" => Some(WithFlags(map["stealth" := BOOL]))
    case "vault" => Some(WithSubcommands(map[
        "status" := map[],
        "import" := map["consumer" := VALUE, "host" := VALUE, "session" := VALUE, "creds" := VALUE, "exit" := VALUE],
        "login" := map["consumer" := VALUE, "host" := VALUE, "recipe" := VALUE, "creds" := VALUE],
        "revoke" := map["consumer" := VALUE, "host" := VALUE]]))
    case _ => None
  }

  datatype Flags = Flags(bools: set<string>, values: map<string, string>, allow: Option<seq<string>>)

  const NO_FLAGS := Flags({}, map[], None)

  datatype Scanned = Scanned(positionals: seq<string>, flags: Flags)

  datatype Error =
    | NoCommand | UnknownCommand | MissingSubcommand
    | UnknownFlag(name: string) | TakesNoValue(name: string) | RequiresValue(name: string) | RequiresRule(name: string)

  datatype Result<T> = Ok(value: T) | Err(error: Error)

  datatype Invocation = Invocation(command: string, subcommand: Option<string>, scanned: Scanned)

  // -- small string functions -----------------------------------------------------------------------

  function IndexOf(s: string, c: char): (r: Option<nat>)
    ensures r.Some? ==> r.value < |s| && s[r.value] == c && c !in s[..r.value]
    ensures r.None? ==> c !in s
  {
    if s == "" then None
    else if s[0] == c then Some(0)
    else
      var r := IndexOf(s[1..], c);
      if r.Some? then Some(r.value + 1) else None
  }

  function Split(s: string, c: char): (r: seq<string>)
    ensures |r| > 0
    decreases |s|
  {
    var i := IndexOf(s, c);
    if i.None? then [s] else [s[..i.value]] + Split(s[i.value + 1..], c)
  }

  /** `split(",").map(trim).filter(Boolean)`. */
  function Rules(parts: seq<string>): seq<string> {
    if parts == [] then []
    else (if Trim(parts[0]) == "" then [] else [Trim(parts[0])]) + Rules(parts[1..])
  }

  // -- the parser -----------------------------------------------------------------------------------

  predicate IsFlag(arg: string) { "--" <= arg }

  /** A flag found, its value if it takes one. */
  function Set(flags: Flags, name: string, spec: FlagSpec, value: string): Result<Flags> {
    if !spec.takesValue then Ok(if name == "__proto__" then flags else flags.(bools := flags.bools + {name}))
    else if value == "" then Err(RequiresValue(name))
    else if spec.multi then
      var rules := Rules(Split(value, ','));
      if rules == [] then Err(RequiresRule(name))
      else Ok(flags.(allow := Some((if flags.allow.Some? then flags.allow.value else []) + rules)))
    else Ok(flags.(values := flags.values[name := value]))
  }

  /** The parse of the arguments from position `i` on. */
  function ScanFrom(table: Spec, args: seq<string>, i: nat, acc: Scanned): Result<Scanned>
    decreases |args| - i
  {
    if i >= |args| then Ok(acc)
    else if !IsFlag(args[i]) then ScanFrom(table, args, i + 1, acc.(positionals := acc.positionals + [args[i]]))
    else
      var eq := IndexOf(args[i], '=');
      var name := if eq.None? then args[i][2..] else args[i][2..eq.value];
      var spec := Lookup(table, name);
      if spec.None? then Err(UnknownFlag(name))
      else if !spec.value.takesValue then
        if eq.Some? then Err(TakesNoValue(name))
        else ScanFrom(table, args, i + 1, acc.(flags := Set(acc.flags, name, spec.value, "").value))
      else
        var separate := eq.None? && i + 1 < |args| && !IsFlag(args[i + 1]);
        var value := if eq.Some? then args[i][eq.value + 1..] else if separate then args[i + 1] else "";
        var set_ := Set(acc.flags, name, spec.value, value);
        if set_.Err? then Err(set_.error)
        else ScanFrom(table, args, if separate then i + 2 else i + 1, acc.(flags := set_.value))
  }

  /** `spec.subcommands[sub]`; `members` says which names an inherited value answers to. */
  function SubcommandSpec(subs: map<string, Table>, sub: string, members: string -> set<string>): Option<Spec> {
    if sub in subs then Some(Declared(subs[sub])) else if sub in INHERITED then Some(Spec(map[], members(sub))) else None
  }

  function Scan(table: Spec, args: seq<string>): Result<Scanned> { ScanFrom(table, args, 0, Scanned([], NO_FLAGS)) }

  function Parse(argv: seq<string>, members: string -> set<string>): Result<Invocation> {
    if argv == [] then Err(NoCommand)
    else
      var command := CommandOf(argv[0]);
      if command.None? then Err(UnknownCommand)
      else
        match command.value
        case WithFlags(table) =>
          var r := Scan(Declared(table), argv[1..]);
          if r.Err? then Err(r.error) else Ok(Invocation(argv[0], None, r.value))
        case WithSubcommands(subs) =>
          if |argv| < 2 || SubcommandSpec(subs, argv[1], members).None? then Err(MissingSubcommand)
          else
            var r := Scan(SubcommandSpec(subs, argv[1], members).value, argv[2..]);
            if r.Err? then Err(r.error) else Ok(Invocation(argv[0], Some(argv[1]), r.value))
  }

  /** The same parse, as the source runs it: one index advanced over the arguments. */
  method ParseCliArgs(argv: seq<string>, members: string -> set<string>) returns (r: Result<Invocation>)
    ensures r == Parse(argv, members)
  {
    if argv == [] { return Err(NoCommand); }
    var command := CommandOf(argv[0]);
    if command.None? { return Err(UnknownCommand); }
    var table: Spec;
    var subcommand := None;
    var args := argv[1..];
    if command.value.WithSubcommands? {
      if |argv| < 2 { return Err(MissingSubcommand); }
      var found := SubcommandSpec(command.value.subs, argv[1], members);
      if found.None? { return Err(MissingSubcommand); }
      subcommand := Some(argv[1]);
      table := found.value;
      args := argv[2..];
    } else {
      table := Declared(command.value.flags);
    }
    var scanned := ScanArgs(table, args);
    r := if scanned.Err? then Err(scanned.error) else Ok(Invocation(argv[0], subcommand, scanned.value));
  }

  method ScanArgs(table: Spec, args: seq<string>) returns (r: Result<Scanned>)
    ensures r == Scan(table, args)
  {
    var positionals := [];
    var flags := NO_FLAGS;
    var i := 0;
    while i < |args|
      invariant ScanFrom(table, args, i, Scanned(positionals, flags)) == ScanFrom(table, args, 0, Scanned([], NO_FLAGS))
      decreases |args| - i
    {
      var arg := args[i];
      if !IsFlag(arg) {
        positionals := positionals + [arg];
        i := i + 1;
        continue;
      }
      var eq := IndexOf(arg, '=');
      var name := if eq.None? then arg[2..] else arg[2..eq.value];
      var spec := Lookup(table, name);
      if spec.None? { return Err(UnknownFlag(name)); }
      if !spec.value.takesValue {
        if eq.Some? { return Err(TakesNoValue(name)); }
        if name != "__proto__" { flags := flags.(bools := flags.bools + {name}); }
        i := i + 1;
        continue;
      }
      var value := "";
      var next := i + 1;
      if eq.Some? {
        value := arg[eq.value + 1..];
      } else if i + 1 < |args| && !IsFlag(args[i + 1]) {
        value := args[i + 1];
        next := i + 2;
      }
      if value == "" { return Err(RequiresValue(name)); }
      if spec.value.multi {
        var rules := Rules(Split(value, ','));
        if rules == [] { return Err(RequiresRule(name)); }
        flags := flags.(allow := Some((if flags.allow.Some? then flags.allow.value else []) + rules));
      } else {
        flags := flags.(values := flags.values[name := value]);
      }
      i := next;
    }
    r := Ok(Scanned(positionals, flags));
  }

  // -- printing -------------------------------------------------------------------------------------

  datatype Item =
    | Positional(p: string)
    | Switch(name: string)
    | Named(name: string, value: string)
    | Apart(name: string, value: string)
    | Allow(rules: seq<string>)

  function JoinRules(rules: seq<string>): string
    requires rules != []
  {
    if |rules| == 1 then rules[0] else rules[0] + "," + JoinRules(rules[1..])
  }

  predicate Rule(r: string) { r != "" && ',' !in r && Trim(r) == r }

  predicate WellFormed(table: Spec, item: Item) {
    match item
    case Positional(p) => !IsFlag(p)
    case Switch(name) => name in table.own && table.own[name] == BOOL && '=' !in name && name !in INHERITED
    case Named(name, value) => name in table.own && table.own[name] == VALUE && '=' !in name && value != ""
    case Apart(name, value) => name in table.own && table.own[name] == VALUE && '=' !in name && value != "" && !IsFlag(value)
    case Allow(rules) => "allow" in table.own && table.own["allow"] == LIST && rules != [] && forall i | 0 <= i < |rules| :: Rule(rules[i])
  }

  function Render(item: Item): seq<string>
    requires item.Allow? ==> item.rules != []
  {
    match item
    case Positional(p) => [p]
    case Switch(name) => ["--" + name]
    case Named(name, value) => ["--" + name + "=" + value]
    case Apart(name, value) => ["--" + name, value]
    case Allow(rules) => ["--allow=" + JoinRules(rules)]
  }

  function Apply(acc: Scanned, item: Item): Scanned {
    match item
    case Positional(p) => acc.(positionals := acc.positionals + [p])
    case Switch(name) => acc.(flags := acc.flags.(bools := acc.flags.bools + {name}))
    case Named(name, value) => acc.(flags := acc.flags.(values := acc.flags.values[name := value]))
    case Apart(name, value) => acc.(flags := acc.flags.(values := acc.flags.values[name := value]))
    case Allow(rules) =>
      acc.(flags := acc.flags.(allow := Some((if acc.flags.allow.Some? then acc.flags.allow.value else []) + rules)))
  }

  predicate AllWellFormed(table: Spec, items: seq<Item>) { forall i | 0 <= i < |items| :: WellFormed(table, items[i]) }

  function RenderAll(table: Spec, items: seq<Item>): seq<string>
    requires AllWellFormed(table, items)
  {
    if items == [] then [] else Render(items[0]) + RenderAll(table, items[1..])
  }

  function ApplyAll(acc: Scanned, items: seq<Item>): Scanned
    decreases |items|
  {
    if items == [] then acc else ApplyAll(Apply(acc, items[0]), items[1..])
  }

  lemma {:induction false} IndexAfter(a: string, c: char, b: string)
    requires c !in a
    ensures IndexOf(a + [c] + b, c) == Some(|a|)
  {
    var s := a + [c] + b;
    if a != "" {
      assert s[0] == a[0] && a[0] in a;
      assert s[1..] == a[1..] + [c] + b;
      IndexAfter(a[1..], c, b);
    }
  }

  lemma {:induction false} NoIndex(a: string, c: char)
    requires c !in a
    ensures IndexOf(a, c).None?
  {
  }

  lemma {:induction false} RulesStay(rules: seq<string>)
    requires forall i | 0 <= i < |rules| :: Rule(rules[i])
    ensures Rules(rules) == rules
  {
    hide Trim;
    if rules != [] {
      assert Rule(rules[0]);
      RulesStay(rules[1..]);
      assert rules == [rules[0]] + rules[1..];
    }
  }

  lemma {:induction false} SplitRules(rules: seq<string>)
    requires rules != [] && forall i | 0 <= i < |rules| :: Rule(rules[i])
    ensures Split(JoinRules(rules), ',') == rules && JoinRules(rules) != ""
    decreases |rules|
  {
    hide Trim;
    assert Rule(rules[0]);
    if |rules| == 1 {
      NoIndex(rules[0], ',');
      assert rules == [rules[0]];
    } else {
      SplitRules(rules[1..]);
      var s := JoinRules(rules);
      var rest := JoinRules(rules[1..]);
      assert s == rules[0] + [','] + rest;
      IndexAfter(rules[0], ',', rest);
      assert s[..|rules[0]|] == rules[0] && s[|rules[0]| + 1..] == rest;
      assert rules == [rules[0]] + rules[1..];
    }
  }

  /** Where the parse stands in the argument list does not matter, only what is left of it. */
  lemma {:induction false} ScanShift(table: Spec, args: seq<string>, i: nat, k: nat, acc: Scanned)
    requires k <= i <= |args|
    ensures ScanFrom(table, args, i, acc) == ScanFrom(table, args[k..], i - k, acc)
    decreases |args| - i
  {
    hide Set, Lookup;
    if i < |args| {
      assert args[k..][i - k] == args[i];
      if i + 1 < |args| { assert args[k..][i - k + 1] == args[i + 1]; }
      if !IsFlag(args[i]) {
        ScanShift(table, args, i + 1, k, acc.(positionals := acc.positionals + [args[i]]));
      } else {
        var eq := IndexOf(args[i], '=');
        var name := if eq.None? then args[i][2..] else args[i][2..eq.value];
        var spec := Lookup(table, name);
        if spec.Some? && !spec.value.takesValue {
          BoolAlwaysSets(acc.flags, name, spec.value);
          ScanShift(table, args, i + 1, k, acc.(flags := Set(acc.flags, name, spec.value, "").value));
        } else if spec.Some? {
          var separate := eq.None? && i + 1 < |args| && !IsFlag(args[i + 1]);
          var value := if eq.Some? then args[i][eq.value + 1..] else if separate then args[i + 1] else "";
          var flags := Set(acc.flags, name, spec.value, value);
          if flags.Ok? { ScanShift(table, args, if separate then i + 2 else i + 1, k, acc.(flags := flags.value)); }
        }
      }
    }
  }

  /** One rendered item is read back as that item, whatever follows it. */
  lemma ItemReads(table: Spec, item: Item, rest: seq<string>, acc: Scanned)
    requires WellFormed(table, item)
    ensures ScanFrom(table, Render(item) + rest, 0, acc) == ScanFrom(table, rest, 0, Apply(acc, item))
  {
    var args := Render(item) + rest;
    var n := |Render(item)|;
    assert args[n..] == rest;
    ScanShift(table, args, n, n, Apply(acc, item));
    match item {
      case Positional(p) =>
      case Switch(name) =>
        NoIndex("--" + name, '=');
        assert args[0][2..] == name;
      case Named(name, value) =>
        ValueReads(name, value);
      case Apart(name, value) =>
        NoIndex("--" + name, '=');
        assert args[0][2..] == name && args[1] == value;
      case Allow(rules) =>
        ValueReads("allow", JoinRules(rules));
        assert args[0] == "--" + "allow" + "=" + JoinRules(rules);
        SplitRules(rules);
        RulesStay(rules);
    }
  }

  lemma ValueReads(name: string, value: string)
    requires '=' !in name
    ensures var arg := "--" + name + "=" + value;
      && IndexOf(arg, '=') == Some(|name| + 2) && IsFlag(arg)
      && arg[2..|name| + 2] == name && arg[|name| + 3..] == value
  {
    IndexAfter("--" + name, '=', value);
  }

  /** Any sequence of well-formed items, in any order, parses back to what the items say. */
  lemma {:induction false} RenderThenParse(table: Spec, items: seq<Item>, acc: Scanned)
    requires AllWellFormed(table, items)
    ensures ScanFrom(table, RenderAll(table, items), 0, acc) == Ok(ApplyAll(acc, items))
    decreases |items|
  {
    if items != [] {
      assert WellFormed(table, items[0]);
      assert AllWellFormed(table, items[1..]) by {
        forall i | 0 <= i < |items[1..]| ensures WellFormed(table, items[1..][i]) { assert WellFormed(table, items[i + 1]); }
      }
      ItemReads(table, items[0], RenderAll(table, items[1..]), acc);
      RenderThenParse(table, items[1..], Apply(acc, items[0]));
    }
  }

  /** A value may as well be its own argument, for a flag of any kind, as long as it does not look like a flag. */
  lemma TwoTokensParseAlike(table: Spec, name: string, value: string, rest: seq<string>, acc: Scanned)
    requires name in table.own && table.own[name].takesValue && '=' !in name && value != "" && !IsFlag(value)
    ensures ScanFrom(table, ["--" + name, value] + rest, 0, acc) == ScanFrom(table, ["--" + name + "=" + value] + rest, 0, acc)
  {
    hide Rules, Split;
    var apart, joined := ["--" + name, value] + rest, ["--" + name + "=" + value] + rest;
    NoIndex("--" + name, '=');
    ValueReads(name, value);
    assert apart[0][2..] == name && apart[2..] == rest && joined[1..] == rest;
    var set_ := Set(acc.flags, name, table.own[name], value);
    if set_.Ok? {
      ScanShift(table, apart, 2, 2, acc.(flags := set_.value));
      ScanShift(table, joined, 1, 1, acc.(flags := set_.value));
    }
  }

  /** And when it does look like one, the flag is left without a value. */
  lemma FlagLikeValueIsRefused(table: Spec, name: string, value: string, rest: seq<string>, acc: Scanned)
    requires name in table.own && table.own[name].takesValue && '=' !in name && (IsFlag(value) || value == "")
    ensures ScanFrom(table, ["--" + name, value] + rest, 0, acc) == Err(RequiresValue(name))
  {
    NoIndex("--" + name, '=');
    assert (["--" + name, value] + rest)[0][2..] == name;
  }

  // -- whole invocations ----------------------------------------------------------------------------

  function TableOf(command: string, subcommand: Option<string>): Option<Spec> {
    var c := CommandOf(command);
    if c.None? then None
    else
      match c.value
      case WithFlags(flags) => if subcommand.None? then Some(Declared(flags)) else None
      case WithSubcommands(subs) => if subcommand.Some? && subcommand.value in subs then Some(Declared(subs[subcommand.value])) else None
  }

  /** An invocation the command's own table could have produced, its flag names in some listing order. */
  predicate WellFormedInvocation(inv: Invocation, bools: seq<string>, names: seq<string>) {
    var table := TableOf(inv.command, inv.subcommand);
    && table.Some?
    && (forall n | n in bools :: n in inv.scanned.flags.bools) && (forall n | n in inv.scanned.flags.bools :: n in bools)
    && (forall n | n in names :: n in inv.scanned.flags.values) && (forall n | n in inv.scanned.flags.values :: n in names)
    && (forall i | 0 <= i < |inv.scanned.positionals| :: !IsFlag(inv.scanned.positionals[i]))
    && (forall i | 0 <= i < |bools| :: WellFormed(table.value, Switch(bools[i])))
    && (forall i | 0 <= i < |names| :: WellFormed(table.value, Named(names[i], inv.scanned.flags.values[names[i]])))
    && (inv.scanned.flags.allow.Some? ==> WellFormed(table.value, Allow(inv.scanned.flags.allow.value)))
  }

  function PositionalItems(ps: seq<string>): seq<Item> { seq(|ps|, i requires 0 <= i < |ps| => Positional(ps[i])) }

  function SwitchItems(bools: seq<string>): seq<Item> { seq(|bools|, i requires 0 <= i < |bools| => Switch(bools[i])) }

  function NamedItems(names: seq<string>, values: map<string, string>): seq<Item>
    requires forall n | n in names :: n in values
  {
    seq(|names|, i requires 0 <= i < |names| => Named(names[i], values[names[i]]))
  }

  function AllowItems(allow: Option<seq<string>>): seq<Item> { if allow.Some? then [Allow(allow.value)] else [] }

  function Items(inv: Invocation, bools: seq<string>, names: seq<string>): seq<Item>
    requires forall n | n in names :: n in inv.scanned.flags.values
  {
    PositionalItems(inv.scanned.positionals) + SwitchItems(bools) + NamedItems(names, inv.scanned.flags.values)
    + AllowItems(inv.scanned.flags.allow)
  }

  lemma {:induction false} ApplyAppend(acc: Scanned, a: seq<Item>, b: seq<Item>)
    ensures ApplyAll(acc, a + b) == ApplyAll(ApplyAll(acc, a), b)
    decreases |a|
  {
    if a == [] {
      assert a + b == b;
    } else {
      assert (a + b)[1..] == a[1..] + b;
      ApplyAppend(Apply(acc, a[0]), a[1..], b);
    }
  }

  lemma {:induction false} PositionalsApply(acc: Scanned, ps: seq<string>)
    ensures ApplyAll(acc, PositionalItems(ps)) == acc.(positionals := acc.positionals + ps)
    decreases |ps|
  {
    if ps == [] {
      assert acc.positionals + ps == acc.positionals;
    } else {
      assert PositionalItems(ps)[1..] == PositionalItems(ps[1..]);
      PositionalsApply(acc.(positionals := acc.positionals + [ps[0]]), ps[1..]);
      assert acc.positionals + [ps[0]] + ps[1..] == acc.positionals + ps;
    }
  }

  lemma {:induction false} SwitchesApply(acc: Scanned, bools: seq<string>)
    ensures ApplyAll(acc, SwitchItems(bools)) == acc.(flags := acc.flags.(bools := acc.flags.bools + set n | n in bools))
    decreases |bools|
  {
    if bools == [] {
      assert acc.flags.bools + (set n | n in bools) == acc.flags.bools;
    } else {
      assert SwitchItems(bools)[1..] == SwitchItems(bools[1..]);
      SwitchesApply(Apply(acc, Switch(bools[0])), bools[1..]);
      assert acc.flags.bools + {bools[0]} + (set n | n in bools[1..]) == acc.flags.bools + (set n | n in bools);
    }
  }

  lemma {:induction false} NamedApply(acc: Scanned, names: seq<string>, values: map<string, string>)
    requires forall n | n in names :: n in values
    ensures ApplyAll(acc, NamedItems(names, values)) ==
      acc.(flags := acc.flags.(values := acc.flags.values + map n | n in names :: values[n]))
    decreases |names|
  {
    if names == [] {
      assert acc.flags.values + (map n | n in names :: values[n]) == acc.flags.values;
    } else {
      assert NamedItems(names, values)[1..] == NamedItems(names[1..], values);
      NamedApply(Apply(acc, Named(names[0], values[names[0]])), names[1..], values);
      assert acc.flags.values[names[0] := values[names[0]]] + (map n | n in names[1..] :: values[n])
        == acc.flags.values + (map n | n in names :: values[n]);
    }
  }

  lemma ItemsApply(inv: Invocation, bools: seq<string>, names: seq<string>)
    requires WellFormedInvocation(inv, bools, names)
    ensures ApplyAll(Scanned([], NO_FLAGS), Items(inv, bools, names)) == inv.scanned
  {
    hide WellFormed, ApplyAll;
    var f := inv.scanned.flags;
    var p, s, n, a := PositionalItems(inv.scanned.positionals), SwitchItems(bools), NamedItems(names, f.values), AllowItems(f.allow);
    var acc := Scanned([], NO_FLAGS);
    ApplyAppend(acc, p + s + n, a);
    ApplyAppend(acc, p + s, n);
    ApplyAppend(acc, p, s);
    PositionalsApply(acc, inv.scanned.positionals);
    var acc1 := Scanned(inv.scanned.positionals, NO_FLAGS);
    assert [] + inv.scanned.positionals == inv.scanned.positionals;
    SwitchesApply(acc1, bools);
    var acc2 := Scanned(inv.scanned.positionals, Flags(f.bools, map[], None));
    assert {} + (set x | x in bools) == f.bools;
    NamedApply(acc2, names, f.values);
    assert map[] + (map x | x in names :: f.values[x]) == f.values;
    AllowApplies(Scanned(inv.scanned.positionals, Flags(f.bools, f.values, None)), f.allow);
  }

  lemma AllowApplies(acc: Scanned, allow: Option<seq<string>>)
    requires acc.flags.allow.None?
    ensures ApplyAll(acc, AllowItems(allow)) == acc.(flags := acc.flags.(allow := allow))
  {
    if allow.Some? {
      assert [] + allow.value == allow.value;
      assert AllowItems(allow)[1..] == [];
    }
  }

  lemma ItemsWellFormed(inv: Invocation, bools: seq<string>, names: seq<string>)
    requires WellFormedInvocation(inv, bools, names)
    ensures AllWellFormed(TableOf(inv.command, inv.subcommand).value, Items(inv, bools, names))
  {
  }

  /** Printing a well-formed invocation as argv with `--name=value` flags. */
  function Print(inv: Invocation, bools: seq<string>, names: seq<string>): seq<string>
    requires WellFormedInvocation(inv, bools, names)
  {
    ItemsWellFormed(inv, bools, names);
    [inv.command] + (if inv.subcommand.Some? then [inv.subcommand.value] else [])
    + RenderAll(TableOf(inv.command, inv.subcommand).value, Items(inv, bools, names))
  }

  /** The CLI round trip: printing then parsing returns the same invocation, whatever order its flags are listed in. */
  lemma PrintThenParse(inv: Invocation, bools: seq<string>, names: seq<string>, members: string -> set<string>)
    requires WellFormedInvocation(inv, bools, names)
    ensures Parse(Print(inv, bools, names), members) == Ok(inv)
  {
    hide WellFormed, Items, RenderAll, ScanFrom, ApplyAll, CommandOf;
    ItemsWellFormed(inv, bools, names);
    ItemsApply(inv, bools, names);
    var table := TableOf(inv.command, inv.subcommand).value;
    RenderThenParse(table, Items(inv, bools, names), Scanned([], NO_FLAGS));
    var argv := Print(inv, bools, names);
    var printed := RenderAll(table, Items(inv, bools, names));
    if inv.subcommand.Some? {
      assert argv == [inv.command, inv.subcommand.value] + printed;
      assert argv[2..] == printed;
    } else {
      assert argv == [inv.command] + printed;
      assert argv[1..] == printed;
    }
  }

  // -- what the tables do not hold ------------------------------------------------------------------

  /** The name a flag argument is looked up under. */
  function NameOf(arg: string): string
    requires IsFlag(arg)
  {
    var eq := IndexOf(arg, '=');
    if eq.None? then arg[2..] else if eq.value < 2 then "" else arg[2..eq.value]
  }

  predicate SetsOnly(flags: Flags, names: set<string>) { flags.bools <= names && flags.values.Keys <= names }

  /** Every flag argument names a flag of the table; `__proto__`, which sets nothing, stands apart. */
  predicate NamesDeclared(table: Spec, args: seq<string>) {
    forall i | 0 <= i < |args| && IsFlag(args[i]) :: NameOf(args[i]) in table.own || NameOf(args[i]) == "__proto__"
  }

  predicate NamesFound(table: Spec, args: seq<string>) {
    forall i | 0 <= i < |args| && IsFlag(args[i]) :: Lookup(table, NameOf(args[i])).Some?
  }

  /** A flag argument's first two characters are dashes, so its name is read as the scan reads it. */
  lemma NameIsRead(arg: string)
    requires IsFlag(arg)
    ensures var eq := IndexOf(arg, '='); NameOf(arg) == if eq.None? then arg[2..] else arg[2..eq.value]
  {
    assert arg[0] == '-' && arg[1] == '-';
  }

  lemma SetSetsItsName(flags: Flags, name: string, spec: FlagSpec, value: string, names: set<string>)
    ensures var r := Set(flags, name, spec, value);
      r.Ok? ==> (SetsOnly(r.value, names) <==> SetsOnly(flags, names) && (name in names || (spec.multi && spec.takesValue) || (!spec.takesValue && name == "__proto__")))
  {
    hide Rules, Split;
    var r := Set(flags, name, spec, value);
    if r.Ok? && spec.takesValue && !spec.multi { assert name in r.value.values.Keys; }
  }

  /**
   For every argument list the parser takes: each flag argument was found, and only declared flags were
   set exactly when every flag argument names one. A value never starts with two dashes, so the flag
   arguments are simply those that do.
   */
  lemma {:induction false} ScanSetsDeclaredIff(table: Spec, args: seq<string>, i: nat, acc: Scanned)
    requires i <= |args| && ScanFrom(table, args, i, acc).Ok?
    ensures NamesFound(table, args[i..])
    ensures SetsOnly(ScanFrom(table, args, i, acc).value.flags, table.own.Keys)
      <==> SetsOnly(acc.flags, table.own.Keys) && NamesDeclared(table, args[i..])
    decreases |args| - i
  {
    hide Set, SetsOnly, NameOf;
    if i < |args| {
      if !IsFlag(args[i]) {
        ScanSetsDeclaredIff(table, args, i + 1, acc.(positionals := acc.positionals + [args[i]]));
        SkipsPlain(table, args, i);
      } else {
        NameIsRead(args[i]);
        var eq := IndexOf(args[i], '=');
        var name := NameOf(args[i]);
        var spec := Lookup(table, name).value;
        var separate := spec.takesValue && eq.None? && i + 1 < |args| && !IsFlag(args[i + 1]);
        var value := if !spec.takesValue then "" else if eq.Some? then args[i][eq.value + 1..] else if separate then args[i + 1] else "";
        var set_ := Set(acc.flags, name, spec, value);
        SetSetsItsName(acc.flags, name, spec, value, table.own.Keys);
        BoolAlwaysSets(acc.flags, name, spec);
        ScanSetsDeclaredIff(table, args, if separate then i + 2 else i + 1, acc.(flags := set_.value));
        if separate { SkipsPlain(table, args, i + 1); }
        TakesFlag(table, args, i);
      }
    }
  }

  lemma BoolAlwaysSets(flags: Flags, name: string, spec: FlagSpec)
    ensures !spec.takesValue ==> Set(flags, name, spec, "").Ok?
  {
  }

  lemma SkipsPlain(table: Spec, args: seq<string>, i: nat)
    requires i < |args| && !IsFlag(args[i])
    ensures NamesFound(table, args[i..]) <==> NamesFound(table, args[i + 1..])
    ensures NamesDeclared(table, args[i..]) <==> NamesDeclared(table, args[i + 1..])
  {
    hide NameOf, Lookup;
    assert args[i..] == [args[i]] + args[i + 1..];
  }

  lemma TakesFlag(table: Spec, args: seq<string>, i: nat)
    requires i < |args| && IsFlag(args[i])
    ensures NamesFound(table, args[i..]) <==> Lookup(table, NameOf(args[i])).Some? && NamesFound(table, args[i + 1..])
    ensures NamesDeclared(table, args[i..]) <==>
      (NameOf(args[i]) in table.own || NameOf(args[i]) == "__proto__") && NamesDeclared(table, args[i + 1..])
  {
    hide NameOf, Lookup;
    assert args[i..] == [args[i]] + args[i + 1..];
  }

  /** A name every object inherits is accepted as a boolean flag, though no command declares it. */
  lemma InheritedNameIsAccepted(table: Spec, name: string, rest: seq<string>, acc: Scanned)
    requires name in table.others && name !in table.own && '=' !in name
    ensures var acc' := if name == "__proto__" then acc else acc.(flags := acc.flags.(bools := acc.flags.bools + {name}));
      ScanFrom(table, ["--" + name] + rest, 0, acc) == ScanFrom(table, rest, 0, acc')
  {
    var acc' := if name == "__proto__" then acc else acc.(flags := acc.flags.(bools := acc.flags.bools + {name}));
    var args := ["--" + name] + rest;
    NoIndex("--" + name, '=');
    hide Split, Rules, IndexOf;
    assert args[0][2..] == name && args[1..] == rest;
    assert Lookup(table, name) == Some(BOOL);
    assert Set(acc.flags, name, BOOL, "") == Ok(acc'.flags);
    ScanShift(table, args, 1, 1, acc');
  }

  /** Inside the tables: a declared subcommand, where the command has any, and declared flags only. */
  predicate InTable(argv: seq<string>) {
    && argv != [] && CommandOf(argv[0]).Some?
    && match CommandOf(argv[0]).value
       case WithFlags(table) => NamesDeclared(Declared(table), argv[1..])
       case WithSubcommands(subs) => |argv| >= 2 && argv[1] in subs && NamesDeclared(Declared(subs[argv[1]]), argv[2..])
  }

  /** The table the result belongs to holds its subcommand and every flag it sets. */
  predicate Holds(inv: Invocation) {
    var table := TableOf(inv.command, inv.subcommand);
    table.Some? && SetsOnly(inv.scanned.flags, table.value.own.Keys)
  }

  /** "Anything outside this table is a usage error", for every argv: what is accepted lies inside the tables exactly when argv does. */
  lemma AcceptedIsHeldIff(argv: seq<string>, members: string -> set<string>)
    requires Parse(argv, members).Ok?
    ensures Holds(Parse(argv, members).value) <==> InTable(argv)
  {
    hide CommandOf, ScanFrom, NamesDeclared, NamesFound;
    var acc := Scanned([], NO_FLAGS);
    match CommandOf(argv[0]).value {
      case WithFlags(table) =>
        ScanSetsDeclaredIff(Declared(table), argv[1..], 0, acc);
        assert argv[1..][0..] == argv[1..];
      case WithSubcommands(subs) =>
        ScanSetsDeclaredIff(SubcommandSpec(subs, argv[1], members).value, argv[2..], 0, acc);
        assert argv[2..][0..] == argv[2..];
    }
  }

  /** A table that declares nothing takes an argument list exactly when every flag in it is found and carries no value. */
  lemma {:induction false} UndeclaredScanIff(table: Spec, args: seq<string>, i: nat, acc: Scanned)
    requires i <= |args| && table.own == map[]
    ensures ScanFrom(table, args, i, acc).Ok? <==> forall j | i <= j < |args| && IsFlag(args[j]) :: '=' !in args[j] && args[j][2..] in table.others
    decreases |args| - i
  {
    if i < |args| {
      if !IsFlag(args[i]) {
        UndeclaredScanIff(table, args, i + 1, acc.(positionals := acc.positionals + [args[i]]));
      } else if IndexOf(args[i], '=').None? && args[i][2..] in table.others {
        UndeclaredScanIff(table, args, i + 1, acc.(flags := Set(acc.flags, args[i][2..], BOOL, "").value));
      }
    }
  }

  /** A subcommand no command declares is taken exactly when it is an inherited name and its flags are members of that value. */
  lemma InheritedSubcommandIff(command: string, sub: string, args: seq<string>, members: string -> set<string>)
    requires CommandOf(command).Some? && CommandOf(command).value.WithSubcommands? && sub !in CommandOf(command).value.subs
    ensures Parse([command, sub] + args, members).Ok? <==>
      sub in INHERITED && forall j | 0 <= j < |args| && IsFlag(args[j]) :: '=' !in args[j] && args[j][2..] in members(sub)
  {
    hide CommandOf, ScanFrom;
    assert ([command, sub] + args)[2..] == args;
    if sub in INHERITED { UndeclaredScanIff(Spec(map[], members(sub)), args, 0, Scanned([], NO_FLAGS)); }
  }

  /** Concretely, whatever the engine: `keys constructor` is no usage error. */
  lemma KeysConstructorIsAccepted(members: string -> set<string>)
    ensures Parse(["keys", "constructor"], members) == Ok(Invocation("keys", Some("constructor"), Scanned([], NO_FLAGS)))
  {
    assert ["keys", "constructor"][2..] == [];
    assert "constructor" in INHERITED;
  }

  lemma ConstructorIsAFlagOfConnect()
    ensures Scan(Declared(map["full" := BOOL]), ["--constructor"]) == Ok(Scanned([], Flags({"constructor"}, map[], None)))
  {
    hide ScanFrom;
    var table := Declared(map["full" := BOOL]);
    assert "--" + "constructor" == "--constructor";
    assert ["--constructor"] == ["--" + "constructor"] + [];
    assert NO_FLAGS.bools + {"constructor"} == {"constructor"};
    InheritedNameIsAccepted(table, "constructor", [], Scanned([], NO_FLAGS));
    NothingLeft(table, Scanned([], Flags({"constructor"}, map[], None)));
  }

  lemma NothingLeft(table: Spec, acc: Scanned)
    ensures ScanFrom(table, [], 0, acc) == Ok(acc)
  {
  }
}
