/**
 The two ssh argv scanners of `src/cli/tunnel.ts`: the destination finder, which knows every ssh option
 that takes a value, and the allowlist scan for our own keeper, which knows only -N, -T and -L.
 */
module SshArgv {
  import opened Common

  const SSH_VALUE_FLAGS := "BbcDEeFIiJLlmOopQRSWw"

  predicate StartsWith(s: string, prefix: string) { prefix <= s }

  predicate TakesValue(c: char) { c in SSH_VALUE_FLAGS }

  // -- sshDestination -------------------------------------------------------------------------------

  /** How far the destination finder skips over an option; nothing when it cannot parse it. */
  function OptionWidth(t: string): Option<nat>
    requires |t| >= 2
  {
    if |t| == 2 then Some(if TakesValue(t[1]) then 2 else 1)
    else if TakesValue(t[1]) then Some(1)
    else if forall c | c in t[1..] :: !TakesValue(c) then Some(1)
    else None
  }

  function DestinationFrom(tokens: seq<string>, i: nat): Option<string>
    decreases |tokens| - i
  {
    if i >= |tokens| then None
    else if tokens[i] == "--" then (if i + 1 < |tokens| then Some(tokens[i + 1]) else None)
    else if StartsWith(tokens[i], "-") && |tokens[i]| >= 2 then
      var w := OptionWidth(tokens[i]);
      if w.None? then None else DestinationFrom(tokens, i + w.value)
    else Some(tokens[i])
  }

  method SshDestination(tokens: seq<string>) returns (r: Option<string>)
    ensures r == DestinationFrom(tokens, 1)
  {
    var i := 1;
    while i < |tokens|
      invariant DestinationFrom(tokens, i) == DestinationFrom(tokens, 1)
      decreases |tokens| - i
    {
      var t := tokens[i];
      if t == "--" { return if i + 1 < |tokens| then Some(tokens[i + 1]) else None; }
      if StartsWith(t, "-") && |t| >= 2 {
        if |t| == 2 {
          i := i + if TakesValue(t[1]) then 2 else 1;
          continue;
        }
        if TakesValue(t[1]) {
          i := i + 1;
          continue;
        }
        if forall c | c in t[1..] :: !TakesValue(c) {
          i := i + 1;
          continue;
        }
        return None;
      }
      return Some(t);
    }
    r := None;
  }

  // -- isOurKeeperInvocation ------------------------------------------------------------------------

  datatype Spec = Spec(port: string, alias: string)

  /** An `-N`/`-T` bundle; the empty bundle `-` passes too. */
  predicate Bundle(t: string) { StartsWith(t, "-") && forall c | c in t[1..] :: c == 'N' || c == 'T' }

  predicate Forwards(spec: Spec, value: string) { StartsWith(value, spec.port + ":") }

  /** The allowlist scan from token `i`: refused, or whether some -L forwards our port. */
  function Scan(tokens: seq<string>, i: nat, spec: Spec, found: bool): Option<bool>
    decreases |tokens| - i
  {
    if i >= |tokens| || tokens[i] == "--" then Some(found)
    else if !StartsWith(tokens[i], "-") then Scan(tokens, i + 1, spec, found)
    else if tokens[i] == "-L" then
      if i + 1 >= |tokens| then None else Scan(tokens, i + 2, spec, found || Forwards(spec, tokens[i + 1]))
    else if StartsWith(tokens[i], "-L") then Scan(tokens, i + 1, spec, found || Forwards(spec, tokens[i][2..]))
    else if Bundle(tokens[i]) then Scan(tokens, i + 1, spec, found)
    else None
  }

  predicate Accepted(tokens: seq<string>, spec: Spec) {
    Scan(tokens, 1, spec, false) == Some(true) && DestinationFrom(tokens, 1) == Some(spec.alias)
  }

  method IsOurKeeperInvocation(tokens: seq<string>, spec: Spec) returns (ours: bool)
    ensures ours == Accepted(tokens, spec)
  {
    var forwardsOurPort := false;
    var i := 1;
    while i < |tokens| && tokens[i] != "--"
      invariant Scan(tokens, i, spec, forwardsOurPort) == Scan(tokens, 1, spec, false)
      decreases |tokens| - i
    {
      var t := tokens[i];
      if !StartsWith(t, "-") {
        i := i + 1;
      } else if t == "-L" {
        if i + 1 >= |tokens| { return false; }
        if Forwards(spec, tokens[i + 1]) { forwardsOurPort := true; }
        i := i + 2;
      } else if StartsWith(t, "-L") {
        if Forwards(spec, t[2..]) { forwardsOurPort := true; }
        i := i + 1;
      } else {
        if !(forall c | c in t[1..] :: c == 'N' || c == 'T') { return false; }
        i := i + 1;
      }
    }
    var destination := SshDestination(tokens);
    ours := forwardsOurPort && destination == Some(spec.alias);
  }

  // -- the two agree --------------------------------------------------------------------------------

  /** Where the allowlist scan meets its first operand: a token it skips, or whatever follows `--`. */
  function FirstOperand(tokens: seq<string>, i: nat): (r: Option<nat>)
    ensures r.Some? ==> i <= r.value < |tokens|
    decreases |tokens| - i
  {
    if i >= |tokens| then None
    else if tokens[i] == "--" then (if i + 1 < |tokens| then Some(i + 1) else None)
    else if !StartsWith(tokens[i], "-") then Some(i)
    else if tokens[i] == "-L" then FirstOperand(tokens, i + 2)
    else FirstOperand(tokens, i + 1)
  }

  /** Nothing but keeper options between `i` and `j`, ending perhaps in `--`. */
  predicate OnlyKeeperOptions(tokens: seq<string>, i: nat, j: nat)
    requires j <= |tokens|
    decreases |tokens| - i
  {
    if i >= j then i == j
    else if tokens[i] == "--" then i + 1 == j
    else if tokens[i] == "-L" then OnlyKeeperOptions(tokens, i + 2, j)
    else (StartsWith(tokens[i], "-L") || Bundle(tokens[i])) && OnlyKeeperOptions(tokens, i + 1, j)
  }

  /** No lone dash among the options before the first operand. */
  predicate NoLoneDash(tokens: seq<string>, i: nat)
    decreases |tokens| - i
  {
    if i >= |tokens| || tokens[i] == "--" || !StartsWith(tokens[i], "-") then true
    else if tokens[i] == "-L" then NoLoneDash(tokens, i + 2)
    else tokens[i] != "-" && NoLoneDash(tokens, i + 1)
  }

  lemma KeeperOptionWidth(t: string)
    requires StartsWith(t, "-") && t != "--" && t != "-"
    requires StartsWith(t, "-L") || Bundle(t)
    ensures |t| >= 2 && OptionWidth(t) == Some(if t == "-L" then 2 else 1)
  {
    if !StartsWith(t, "-L") {
      assert t[1] in t[1..];
      forall c | c in t[1..] ensures !TakesValue(c) {
        assert c == 'N' || c == 'T';
      }
    }
  }

  /** On every argv the allowlist lets through, the two scanners stop at the same operand, lone dashes apart. */
  lemma {:induction false} ScannersAgree(tokens: seq<string>, i: nat, spec: Spec, found: bool)
    requires Scan(tokens, i, spec, found).Some? && NoLoneDash(tokens, i)
    ensures var o := FirstOperand(tokens, i);
      && (o.Some? ==> i <= o.value < |tokens| && DestinationFrom(tokens, i) == Some(tokens[o.value]) && OnlyKeeperOptions(tokens, i, o.value))
      && (o.None? ==> DestinationFrom(tokens, i).None?)
    decreases |tokens| - i
  {
    if i < |tokens| && tokens[i] != "--" && StartsWith(tokens[i], "-") {
      KeeperOptionWidth(tokens[i]);
      if tokens[i] == "-L" {
        ScannersAgree(tokens, i + 2, spec, found || Forwards(spec, tokens[i + 1]));
      } else if StartsWith(tokens[i], "-L") {
        ScannersAgree(tokens, i + 1, spec, found || Forwards(spec, tokens[i][2..]));
      } else {
        ScannersAgree(tokens, i + 1, spec, found);
      }
    }
  }

  /** With a lone dash in front, the finder calls that dash the destination; the allowlist calls it a bundle. */
  lemma {:induction false} LoneDashIsTheDestination(tokens: seq<string>, i: nat, spec: Spec, found: bool)
    requires Scan(tokens, i, spec, found).Some? && !NoLoneDash(tokens, i)
    ensures DestinationFrom(tokens, i) == Some("-")
    decreases |tokens| - i
  {
    if tokens[i] == "-L" {
      KeeperOptionWidth(tokens[i]);
      LoneDashIsTheDestination(tokens, i + 2, spec, found || Forwards(spec, tokens[i + 1]));
    } else if tokens[i] != "-" {
      KeeperOptionWidth(tokens[i]);
      LoneDashIsTheDestination(tokens, i + 1, spec,
        if StartsWith(tokens[i], "-L") then found || Forwards(spec, tokens[i][2..]) else found);
    }
  }

  /** Some -L the scan passed over has our port. */
  predicate SomeForward(tokens: seq<string>, i: nat, spec: Spec)
    decreases |tokens| - i
  {
    if i >= |tokens| || tokens[i] == "--" then false
    else if tokens[i] == "-L" then i + 1 < |tokens| && (Forwards(spec, tokens[i + 1]) || SomeForward(tokens, i + 2, spec))
    else (StartsWith(tokens[i], "-L") && Forwards(spec, tokens[i][2..])) || SomeForward(tokens, i + 1, spec)
  }

  lemma {:induction false} FoundAForward(tokens: seq<string>, i: nat, spec: Spec, found: bool)
    requires Scan(tokens, i, spec, found) == Some(true)
    ensures found || SomeForward(tokens, i, spec)
    decreases |tokens| - i
  {
    if i < |tokens| && tokens[i] != "--" {
      if !StartsWith(tokens[i], "-") {
        FoundAForward(tokens, i + 1, spec, found);
      } else if tokens[i] == "-L" {
        FoundAForward(tokens, i + 2, spec, found || Forwards(spec, tokens[i + 1]));
      } else if StartsWith(tokens[i], "-L") {
        FoundAForward(tokens, i + 1, spec, found || Forwards(spec, tokens[i][2..]));
      } else {
        FoundAForward(tokens, i + 1, spec, found);
      }
    }
  }

  /**
   Accepted means, for every alias but `-`: the destination is the first operand the allowlist scan met
   and it is the alias, everything before it is a -N/-T bundle, an -L with its value, or `--`, and some
   -L forwards our port.
   */
  lemma AcceptedShape(tokens: seq<string>, spec: Spec)
    requires Accepted(tokens, spec) && spec.alias != "-"
    ensures var o := FirstOperand(tokens, 1);
      o.Some? && 1 <= o.value < |tokens| && tokens[o.value] == spec.alias && OnlyKeeperOptions(tokens, 1, o.value)
    ensures SomeForward(tokens, 1, spec)
  {
    if !NoLoneDash(tokens, 1) { LoneDashIsTheDestination(tokens, 1, spec, false); }
    ScannersAgree(tokens, 1, spec, false);
    FoundAForward(tokens, 1, spec, false);
  }

  /** The scanners disagree exactly when a lone dash comes before the allowlist's first operand. */
  lemma AgreementIsExact(tokens: seq<string>, spec: Spec)
    requires Scan(tokens, 1, spec, false).Some?
    ensures var o := FirstOperand(tokens, 1);
      NoLoneDash(tokens, 1) || (o.Some? && tokens[o.value] == "-") <==>
        DestinationFrom(tokens, 1) == (if o.None? then None else Some(tokens[o.value]))
  {
    if NoLoneDash(tokens, 1) {
      ScannersAgree(tokens, 1, spec, false);
    } else {
      LoneDashIsTheDestination(tokens, 1, spec, false);
    }
  }

  /** The one alias that escapes the shape: a keeper named `-` is accepted with no operand at all. */
  lemma DashAliasIsAccepted()
    ensures Accepted(["ssh", "-", "-L", "8080:h:80"], Spec("8080", "-"))
    ensures FirstOperand(["ssh", "-", "-L", "8080:h:80"], 1).None?
  {
    var tokens := ["ssh", "-", "-L", "8080:h:80"];
    var spec := Spec("8080", "-");
    assert Bundle("-");
    assert Forwards(spec, tokens[3]);
    assert Scan(tokens, 4, spec, true) == Some(true);
    assert Scan(tokens, 2, spec, false) == Some(true);
    assert Scan(tokens, 1, spec, false) == Some(true);
  }

  // -- what is accepted -----------------------------------------------------------------------------

  /** Every option the scan meets is the keeper's own: an -L with a value of its own, or an -N/-T bundle. */
  predicate Allowed(tokens: seq<string>, i: nat)
    decreases |tokens| - i
  {
    if i >= |tokens| || tokens[i] == "--" then true
    else if tokens[i] == "-L" then i + 1 < |tokens| && Allowed(tokens, i + 2)
    else (!StartsWith(tokens[i], "-") || StartsWith(tokens[i], "-L") || Bundle(tokens[i])) && Allowed(tokens, i + 1)
  }

  lemma {:induction false} ScanIsExact(tokens: seq<string>, i: nat, spec: Spec, found: bool)
    ensures Scan(tokens, i, spec, found) == if Allowed(tokens, i) then Some(found || SomeForward(tokens, i, spec)) else None
    decreases |tokens| - i
  {
    if i < |tokens| && tokens[i] != "--" {
      if tokens[i] == "-L" {
        if i + 1 < |tokens| { ScanIsExact(tokens, i + 2, spec, found || Forwards(spec, tokens[i + 1])); }
      } else if StartsWith(tokens[i], "-L") {
        ScanIsExact(tokens, i + 1, spec, found || Forwards(spec, tokens[i][2..]));
      } else {
        ScanIsExact(tokens, i + 1, spec, found);
      }
    }
  }

  /**
   Accepted, exactly: only the keeper's own options, some -L that forwards our port, and for destination
   the alias, as the first operand with no lone dash before it; a lone dash before it is the destination itself.
   */
  lemma AcceptedIff(tokens: seq<string>, spec: Spec)
    ensures Accepted(tokens, spec) <==>
      && Allowed(tokens, 1) && SomeForward(tokens, 1, spec)
      && if NoLoneDash(tokens, 1) then FirstOperand(tokens, 1).Some? && tokens[FirstOperand(tokens, 1).value] == spec.alias else spec.alias == "-"
  {
    ScanIsExact(tokens, 1, spec, false);
    if Allowed(tokens, 1) {
      if NoLoneDash(tokens, 1) { ScannersAgree(tokens, 1, spec, false); }
      else { LoneDashIsTheDestination(tokens, 1, spec, false); }
    }
  }

  /** The keeper's own command line is always recognized, whatever the forward target. */
  lemma KeeperIsAccepted(ssh: string, target: string, spec: Spec)
    requires !StartsWith(spec.alias, "-")
    ensures Accepted([ssh, "-N", "-T", "-L", spec.port + ":" + target, spec.alias], spec)
  {
    var tokens := [ssh, "-N", "-T", "-L", spec.port + ":" + target, spec.alias];
    assert Bundle("-N") && Bundle("-T") && Forwards(spec, tokens[4]);
    assert Allowed(tokens, 6) && Allowed(tokens, 5) && Allowed(tokens, 3) && Allowed(tokens, 2);
    assert SomeForward(tokens, 3, spec) && SomeForward(tokens, 2, spec);
    assert FirstOperand(tokens, 5) == Some(5) && FirstOperand(tokens, 3) == Some(5) && FirstOperand(tokens, 2) == Some(5);
    assert NoLoneDash(tokens, 5) && NoLoneDash(tokens, 3) && NoLoneDash(tokens, 2);
    AcceptedIff(tokens, spec);
  }
}
