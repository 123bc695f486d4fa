/**
 Quoting for a POSIX shell: `shQuote` of `src/cli/prod-ssh.ts` and the command line `execScript` of
 `src/cli/vault.ts` builds, against a reader of shell words under sections 2.2.1 and 2.2.2 of the
 POSIX.1-2017 Shell Command Language. The reader gives up on any unquoted character those two sections
 do not cover, and on a NUL anywhere.
 */
module ShellQuote {
  import opened Common

  const NUL: char := '\0'

  // -- the writer -----------------------------------------------------------------------------------

  /** `replaceAll("'", "'\\''")`. */
  function Escaped(v: string): string {
    if v == "" then "" else (if v[0] == '\'' then "'\\''" else [v[0]]) + Escaped(v[1..])
  }

  function ShQuote(v: string): string { "'" + Escaped(v) + "'" }

  // -- the reader -----------------------------------------------------------------------------------

  predicate Blank(c: char) { c == ' ' || c == '\t' || c == '\n' }

  /** Unquoted, these mean something outside sections 2.2.1 and 2.2.2. */
  predicate Special(c: char) {
    c in {'|', '&', ';', '<', '>', '(', ')', '$', '`', '"', '*', '?', '[', '#', '~', '\0'}
  }

  predicate Ordinary(c: char) { !Blank(c) && !Special(c) && c != '\'' && c != '\\' }

  datatype Word = Word(text: string, rest: string)

  function Prepend(c: char, w: Option<Word>): Option<Word> {
    if w.None? then None else Some(w.value.(text := [c] + w.value.text))
  }

  /** Section 2.2.1: a backslash preserves the next character, or removes the newline after it. */
  function Unquoted(s: string): (w: Option<Word>)
    ensures w.Some? ==> |w.value.rest| <= |s|
    ensures w.Some? && s != "" && !Blank(s[0]) ==> |w.value.rest| < |s|
    ensures w.Some? ==> w.value.rest == "" || Blank(w.value.rest[0])
    decreases |s|
  {
    if s == "" then Some(Word("", ""))
    else if Blank(s[0]) then Some(Word("", s))
    else if s[0] == '\'' then Quoted(s[1..])
    else if s[0] == '\\' then
      if |s| < 2 || s[1] == NUL then None
      else if s[1] == '\n' then Unquoted(s[2..])
      else Prepend(s[1], Unquoted(s[2..]))
    else if Special(s[0]) then None
    else Prepend(s[0], Unquoted(s[1..]))
  }

  /** Section 2.2.2: everything up to the next single quote is literal. */
  function Quoted(s: string): (w: Option<Word>)
    ensures w.Some? ==> |w.value.rest| <= |s|
    ensures w.Some? ==> w.value.rest == "" || Blank(w.value.rest[0])
    decreases |s|
  {
    if s == "" || s[0] == NUL then None
    else if s[0] == '\'' then Unquoted(s[1..])
    else Prepend(s[0], Quoted(s[1..]))
  }

  /** The words of one line. */
  function Words(s: string): Option<seq<string>>
    decreases |s|
  {
    if s == "" then Some([])
    else if Blank(s[0]) then Words(s[1..])
    else
      var w := Unquoted(s);
      if w.None? then None
      else
        var rest := Words(w.value.rest);
        if rest.None? then None else Some([w.value.text] + rest.value)
  }

  // -- quoting round trip ---------------------------------------------------------------------------

  /** The reading of `v`, glued in front of whatever the rest of the word reads as. */
  function Glue(v: string, w: Option<Word>): Option<Word> {
    if w.None? then None else Some(w.value.(text := v + w.value.text))
  }

  /** Leaving the quotes, an escaped quote, and back inside: one quote read. */
  lemma EscapeSequence(inner: string)
    ensures Quoted("'\\''" + inner) == Prepend('\'', Quoted(inner))
  {
    var a, b := "\\''" + inner, "'" + inner;
    assert ("'\\''" + inner)[1..] == a && a[2..] == b && b[1..] == inner;
    assert Unquoted(b) == Quoted(inner);
    assert Unquoted(a) == Prepend('\'', Unquoted(b));
  }

  lemma {:induction false} EscapedReads(v: string, rest: string)
    requires NUL !in v
    ensures Quoted(Escaped(v) + "'" + rest) == Glue(v, Unquoted(rest))
  {
    var tail := "'" + rest;
    assert Escaped(v) + "'" + rest == Escaped(v) + tail;
    if v == "" {
      assert Escaped(v) + tail == tail && tail[1..] == rest;
      var w := Unquoted(rest);
      if w.Some? { assert "" + w.value.text == w.value.text; }
    } else {
      assert NUL !in v[1..];
      EscapedReads(v[1..], rest);
      var inner := Escaped(v[1..]) + tail;
      assert inner == Escaped(v[1..]) + "'" + rest;
      if v[0] == '\'' {
        assert Escaped(v) + tail == "'\\''" + inner;
        EscapeSequence(inner);
      } else {
        var s := Escaped(v) + tail;
        assert s == [v[0]] + inner;
        assert s[1..] == inner;
        assert Quoted(s) == Prepend(v[0], Quoted(inner));
      }
      GlueOne(v, Unquoted(rest));
    }
  }

  lemma GlueOne(v: string, w: Option<Word>)
    requires v != ""
    ensures Prepend(v[0], Glue(v[1..], w)) == Glue(v, w)
  {
    if w.Some? { assert [v[0]] + (v[1..] + w.value.text) == v + w.value.text; }
  }

  lemma {:induction false} NulIsUnreadable(v: string, rest: string)
    requires NUL in v
    ensures Quoted(Escaped(v) + "'" + rest).None?
  {
    var tail := "'" + rest;
    var inner := Escaped(v[1..]) + tail;
    if v[0] == NUL {
      assert Escaped(v) + "'" + rest == [NUL] + inner;
    } else {
      assert NUL in v[1..];
      NulIsUnreadable(v[1..], rest);
      assert inner == Escaped(v[1..]) + "'" + rest;
      var s := Escaped(v) + "'" + rest;
      if v[0] == '\'' {
        assert s == "'\\''" + inner;
        EscapeSequence(inner);
      } else {
        assert s == [v[0]] + inner && s[1..] == inner;
      }
    }
  }

  /** Reading a quoted value as a word gives the value back, exactly when it has no NUL. */
  lemma QuoteRoundTrip(v: string, rest: string)
    requires rest == "" || Blank(rest[0])
    ensures Unquoted(ShQuote(v) + rest) == Some(Word(v, rest)) <==> NUL !in v
  {
    var s := ShQuote(v) + rest;
    assert s[1..] == Escaped(v) + "'" + rest;
    if NUL in v {
      NulIsUnreadable(v, rest);
    } else {
      EscapedReads(v, rest);
      assert v + "" == v;
    }
  }

  // -- the command line -----------------------------------------------------------------------------

  /** A piece of text that reads as exactly one word, whatever blank-separated text follows. */
  ghost predicate Reads(text: string, word: string) {
    && text != "" && !Blank(text[0])
    && forall rest: string | rest == "" || Blank(rest[0]) :: Unquoted(text + rest) == Some(Word(word, rest))
  }

  lemma QuotedReads(v: string)
    requires NUL !in v
    ensures Reads(ShQuote(v), v)
  {
    forall rest: string | rest == "" || Blank(rest[0]) ensures Unquoted(ShQuote(v) + rest) == Some(Word(v, rest)) {
      QuoteRoundTrip(v, rest);
    }
  }

  predicate Plain(s: string) { s != "" && forall i | 0 <= i < |s| :: Ordinary(s[i]) }

  lemma {:induction false} PlainUnquoted(s: string, rest: string)
    requires (forall i | 0 <= i < |s| :: Ordinary(s[i])) && (rest == "" || Blank(rest[0]))
    ensures Unquoted(s + rest) == Some(Word(s, rest))
  {
    if s == "" {
      assert s + rest == rest;
    } else {
      PlainUnquoted(s[1..], rest);
      assert (s + rest)[1..] == s[1..] + rest;
      assert [s[0]] + s[1..] == s;
    }
  }

  lemma PlainReads(s: string)
    requires Plain(s)
    ensures Reads(s, s)
  {
    forall rest: string | rest == "" || Blank(rest[0]) ensures Unquoted(s + rest) == Some(Word(s, rest)) {
      PlainUnquoted(s, rest);
    }
  }

  function Join(pieces: seq<string>): string {
    if pieces == [] then "" else if |pieces| == 1 then pieces[0] else pieces[0] + " " + Join(pieces[1..])
  }

  /** A piece that reads as a word, before a blank, is the first word of the line. */
  lemma FirstWord(piece: string, word: string, rest: string, words: seq<string>)
    requires Reads(piece, word) && Words(rest) == Some(words)
    ensures Words(piece + " " + rest) == Some([word] + words)
  {
    hide Unquoted;
    var tail := " " + rest;
    assert piece + " " + rest == piece + tail;
    assert Unquoted(piece + tail) == Some(Word(word, tail));
    assert tail[1..] == rest;
  }

  lemma NoWords()
    ensures Words("") == Some([])
  {
  }

  lemma OnlyWord(piece: string, word: string)
    requires Reads(piece, word)
    ensures Words(piece) == Some([word])
  {
    hide Unquoted;
    NoWords();
    assert piece + "" == piece && [word] + [] == [word];
    assert Unquoted(piece + "") == Some(Word(word, ""));
  }

  /** Pieces that read as words, joined by blanks, split into exactly those words, in order. */
  lemma {:induction false} JoinSplits(pieces: seq<string>, words: seq<string>)
    requires |pieces| == |words| && forall i | 0 <= i < |pieces| :: Reads(pieces[i], words[i])
    ensures Words(Join(pieces)) == Some(words)
    decreases |pieces|
  {
    hide Words, Reads;
    if |pieces| == 0 {
      assert Words("") == Some([]) by { NoWords(); }
    } else if |pieces| == 1 {
      OnlyWord(pieces[0], words[0]);
      assert words == [words[0]];
    } else {
      JoinSplits(pieces[1..], words[1..]);
      FirstWord(pieces[0], words[0], Join(pieces[1..]), words[1..]);
      assert words == [words[0]] + words[1..];
    }
  }

  datatype Flag = Flag(name: string, value: Option<string>)

  /** What `Object.entries(...).filter(...).map(...)` keeps: one `--name 'value'` per defined value. */
  function FlagPieces(flags: seq<Flag>): seq<string> {
    if flags == [] then []
    else (if flags[0].value.None? then [] else ["--" + flags[0].name + " " + ShQuote(flags[0].value.value)]) + FlagPieces(flags[1..])
  }

  /** The words those flags stand for. */
  function FlagWords(flags: seq<Flag>): seq<string> {
    if flags == [] then []
    else (if flags[0].value.None? then [] else ["--" + flags[0].name, flags[0].value.value]) + FlagWords(flags[1..])
  }

  function TrimEnd(s: string): string {
    if s != "" && JsSpace(s[|s| - 1]) then TrimEnd(s[..|s| - 1]) else s
  }

  /** The `exec` line; `trimEnd` applies to its second template alone. */
  function ExecLine(workdir: string, container: string, entry: string, sub: string, flags: seq<Flag>): string {
    "exec docker exec -i -w " + ShQuote(workdir) + " " + ShQuote(container) + " "
    + TrimEnd("node " + ShQuote(entry) + " " + ShQuote(sub) + " " + Join(FlagPieces(flags)))
  }

  /** The pieces of the line, one per word. */
  function LinePieces(workdir: string, container: string, entry: string, sub: string, flags: seq<Flag>): seq<string> {
    FixedPieces(workdir, container, entry, sub) + SplitPieces(flags)
  }

  function SplitPieces(flags: seq<Flag>): seq<string> {
    if flags == [] then []
    else (if flags[0].value.None? then [] else ["--" + flags[0].name, ShQuote(flags[0].value.value)]) + SplitPieces(flags[1..])
  }

  lemma {:induction false} JoinAppend(a: seq<string>, b: seq<string>)
    ensures Join(a + b) == if a == [] then Join(b) else if b == [] then Join(a) else Join(a) + " " + Join(b)
    decreases |a|
  {
    if a == [] {
      assert a + b == b;
    } else if b == [] {
      assert a + b == a;
    } else {
      assert (a + b)[1..] == a[1..] + b;
      JoinAppend(a[1..], b);
      if |a| == 1 { assert a[1..] + b == b; }
    }
  }

  /** Joining pairs is joining their halves. */
  lemma {:induction false} PairsJoinAlike(flags: seq<Flag>)
    ensures Join(FlagPieces(flags)) == Join(SplitPieces(flags)) && (FlagPieces(flags) == [] <==> SplitPieces(flags) == [])
  {
    if flags != [] {
      PairsJoinAlike(flags[1..]);
      if flags[0].value.Some? {
        var name, value := "--" + flags[0].name, ShQuote(flags[0].value.value);
        JoinAppend([name + " " + value], FlagPieces(flags[1..]));
        JoinAppend([name, value], SplitPieces(flags[1..]));
        JoinFew(name, value);
        assert FlagPieces(flags) == [name + " " + value] + FlagPieces(flags[1..]);
        assert SplitPieces(flags) == [name, value] + SplitPieces(flags[1..]);
      } else {
        assert FlagPieces(flags) == FlagPieces(flags[1..]) && SplitPieces(flags) == SplitPieces(flags[1..]);
      }
    }
  }

  lemma {:induction false} FlagPiecesEndQuoted(flags: seq<Flag>)
    ensures FlagPieces(flags) == [] || EndsQuoted(Join(FlagPieces(flags)))
  {
    if flags != [] {
      FlagPiecesEndQuoted(flags[1..]);
      if flags[0].value.Some? {
        JoinAppend(["--" + flags[0].name + " " + ShQuote(flags[0].value.value)], FlagPieces(flags[1..]));
      } else {
        assert FlagPieces(flags) == FlagPieces(flags[1..]);
      }
    }
  }

  predicate EndsQuoted(s: string) { s != "" && s[|s| - 1] == '\'' }

  /** `trimEnd` takes the one trailing blank of a flagless line and nothing else. */
  lemma TrimmedLine(front: string, flags: seq<Flag>)
    requires EndsQuoted(front)
    ensures TrimEnd(front + " " + Join(FlagPieces(flags))) == if FlagPieces(flags) == [] then front else front + " " + Join(FlagPieces(flags))
  {
    FlagPiecesEndQuoted(flags);
    if FlagPieces(flags) == [] {
      assert (front + " " + "")[..|front|] == front;
      assert TrimEnd(front) == front;
    }
  }

  lemma {:induction false} FlagsRead(flags: seq<Flag>)
    requires forall i | 0 <= i < |flags| :: Plain(flags[i].name) && (flags[i].value.Some? ==> NUL !in flags[i].value.value)
    ensures |SplitPieces(flags)| == |FlagWords(flags)|
    ensures forall i | 0 <= i < |SplitPieces(flags)| :: Reads(SplitPieces(flags)[i], FlagWords(flags)[i])
  {
    hide Reads;
    if flags != [] {
      FlagsRead(flags[1..]);
      if flags[0].value.Some? {
        PlainReads("--" + flags[0].name);
        QuotedReads(flags[0].value.value);
      }
    }
  }

  /** The built line splits into the fixed words and exactly the `--name value` pairs it was given, in order. */
  lemma ExecLineSplits(workdir: string, container: string, entry: string, sub: string, flags: seq<Flag>)
    requires NUL !in workdir && NUL !in container && NUL !in entry && NUL !in sub
    requires forall i | 0 <= i < |flags| :: Plain(flags[i].name) && (flags[i].value.Some? ==> NUL !in flags[i].value.value)
    ensures Words(ExecLine(workdir, container, entry, sub, flags)) ==
      Some(["exec", "docker", "exec", "-i", "-w", workdir, container, "node", entry, sub] + FlagWords(flags))
  {
    hide *;
    LineIsJoined(workdir, container, entry, sub, flags);
    FixedRead(workdir, container, entry, sub);
    FlagsRead(flags);
    LineRead(FixedPieces(workdir, container, entry, sub), FixedWords(workdir, container, entry, sub), SplitPieces(flags), FlagWords(flags));
    LineShape(workdir, container, entry, sub, flags);
    JoinSplits(LinePieces(workdir, container, entry, sub, flags), FixedWords(workdir, container, entry, sub) + FlagWords(flags));
  }

  function FixedPieces(workdir: string, container: string, entry: string, sub: string): seq<string> {
    ["exec", "docker", "exec", "-i", "-w", ShQuote(workdir), ShQuote(container), "node", ShQuote(entry), ShQuote(sub)]
  }

  function FixedWords(workdir: string, container: string, entry: string, sub: string): seq<string> {
    ["exec", "docker", "exec", "-i", "-w", workdir, container, "node", entry, sub]
  }

  lemma LineShape(workdir: string, container: string, entry: string, sub: string, flags: seq<Flag>)
    ensures LinePieces(workdir, container, entry, sub, flags) == FixedPieces(workdir, container, entry, sub) + SplitPieces(flags)
    ensures FixedWords(workdir, container, entry, sub) == ["exec", "docker", "exec", "-i", "-w", workdir, container, "node", entry, sub]
  {
  }

  lemma FixedRead(workdir: string, container: string, entry: string, sub: string)
    requires NUL !in workdir && NUL !in container && NUL !in entry && NUL !in sub
    ensures var p := FixedPieces(workdir, container, entry, sub); var w := FixedWords(workdir, container, entry, sub);
      |p| == |w| && forall i | 0 <= i < |p| :: Reads(p[i], w[i])
  {
    hide Reads, ShQuote;
    PlainReads("exec");
    PlainReads("docker");
    PlainReads("-i");
    PlainReads("-w");
    PlainReads("node");
    QuotedReads(workdir);
    QuotedReads(container);
    QuotedReads(entry);
    QuotedReads(sub);
  }

  lemma LineRead(a: seq<string>, v: seq<string>, b: seq<string>, w: seq<string>)
    requires |a| == |v| && forall i | 0 <= i < |a| :: Reads(a[i], v[i])
    requires |b| == |w| && forall i | 0 <= i < |b| :: Reads(b[i], w[i])
    ensures |a + b| == |v + w| && forall i | 0 <= i < |a + b| :: Reads((a + b)[i], (v + w)[i])
  {
    hide Reads;
    forall i | 0 <= i < |a + b| ensures Reads((a + b)[i], (v + w)[i]) {
      if i >= |a| { assert Reads(b[i - |a|], w[i - |a|]); } else { assert Reads(a[i], v[i]); }
    }
  }

  lemma LineIsJoined(workdir: string, container: string, entry: string, sub: string, flags: seq<Flag>)
    ensures ExecLine(workdir, container, entry, sub, flags) == Join(LinePieces(workdir, container, entry, sub, flags))
  {
    hide ShQuote, TrimEnd, Join, FlagPieces, SplitPieces, EndsQuoted;
    var front := "node " + ShQuote(entry) + " " + ShQuote(sub);
    FrontEndsQuoted(entry, sub);
    TrimmedLine(front, flags);
    PairsJoinAlike(flags);
    JoinAppend(FixedPieces(workdir, container, entry, sub), SplitPieces(flags));
    FixedJoined(ShQuote(workdir), ShQuote(container), ShQuote(entry), ShQuote(sub));
    Reassociate("exec docker exec -i -w " + ShQuote(workdir) + " " + ShQuote(container) + " ", front, Join(FlagPieces(flags)));
  }

  lemma FrontEndsQuoted(entry: string, sub: string)
    ensures EndsQuoted("node " + ShQuote(entry) + " " + ShQuote(sub))
  {
    QuoteEnds(sub);
  }

  lemma Reassociate(head: string, front: string, tail: string)
    ensures head + (front + " " + tail) == head + front + " " + tail
  {
  }

  lemma QuoteEnds(v: string)
    ensures EndsQuoted(ShQuote(v))
  {
  }

  lemma JoinOne(a: string, rest: seq<string>)
    requires rest != []
    ensures Join([a] + rest) == a + " " + Join(rest)
  {
    assert ([a] + rest)[1..] == rest;
  }

  lemma FixedJoined(w: string, c: string, e: string, s: string)
    ensures Join(["exec", "docker", "exec", "-i", "-w", w, c, "node", e, s])
      == "exec docker exec -i -w " + w + " " + c + " " + ("node " + e + " " + s)
  {
    hide Join;
    var front := "node " + e + " " + s;
    var two := w + " " + (c + " " + front);
    TailJoined(w, c, e, s);
    HeadJoined([w, c, "node", e, s]);
    assert ["exec", "docker", "exec", "-i", "-w"] + [w, c, "node", e, s] == ["exec", "docker", "exec", "-i", "-w", w, c, "node", e, s];
    Reassociate("exec docker exec -i -w ", w, c + " " + front);
    Reassociate("exec docker exec -i -w " + w + " ", c, front);
  }

  lemma TailJoined(w: string, c: string, e: string, s: string)
    ensures Join([w, c, "node", e, s]) == w + " " + (c + " " + ("node " + e + " " + s))
  {
    hide Join;
    JoinThree("node", e, s);
    JoinOne(c, ["node", e, s]);
    JoinOne(w, [c] + ["node", e, s]);
    assert [w] + ([c] + ["node", e, s]) == [w, c, "node", e, s];
    assert "node" + " " == "node ";
  }

  lemma HeadJoined(rest: seq<string>)
    requires rest != []
    ensures Join(["exec", "docker", "exec", "-i", "-w"] + rest) == "exec docker exec -i -w " + Join(rest)
  {
    hide Join;
    var a := ["-i"] + (["-w"] + rest);
    JoinOne("-w", rest);
    JoinOne("-i", ["-w"] + rest);
    JoinOne("exec", a);
    JoinOne("docker", ["exec"] + a);
    JoinOne("exec", ["docker"] + (["exec"] + a));
    assert ["exec"] + (["docker"] + (["exec"] + a)) == ["exec", "docker", "exec", "-i", "-w"] + rest;
    HeadGlued(Join(rest));
  }

  lemma HeadGlued(t: string)
    ensures "exec" + " " + ("docker" + " " + ("exec" + " " + ("-i" + " " + ("-w" + " " + t)))) == "exec docker exec -i -w " + t
  {
    assert "-w" + " " + t == "-w " + t;
    Glued("-i", "-w ", t);
    assert "-i" + " " + "-w " == "-i -w ";
    Glued("exec", "-i -w ", t);
    assert "exec" + " " + "-i -w " == "exec -i -w ";
    Glued("docker", "exec -i -w ", t);
    assert "docker" + " " + "exec -i -w " == "docker exec -i -w ";
    Glued("exec", "docker exec -i -w ", t);
    assert "exec" + " " + "docker exec -i -w " == "exec docker exec -i -w ";
  }

  lemma Glued(a: string, b: string, c: string)
    ensures a + " " + (b + c) == (a + " " + b) + c
  {
  }

  lemma JoinFew(a: string, b: string)
    ensures Join([a, b]) == a + " " + b
  {
    assert [a, b][1..] == [b];
  }

  lemma JoinThree(a: string, b: string, c: string)
    ensures Join([a, b, c]) == a + " " + b + " " + c
  {
    assert [a, b, c][1..] == [b, c];
    JoinFew(b, c);
  }
}
