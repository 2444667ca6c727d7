/**
 * The script tokeniser, with its quotes, escapes and bounded output, and the
 * loop that cuts a script into commands.
 */
module Tokens {

  const ARG_MAX: nat := 32
  const TOKEN_LEN: nat := 512
  const NONE: char := '\0'      // no quote open; also the delimiter at the end

  predicate IsSpace(c: char) {
    c == ' ' || c == '\n' || c == '\t' || c == '\U{000b}' || c == '\r' || c == '\U{000c}'
  }

  // A token, what follows it, and the character that ended it.
  datatype Token = Token(text: string, rest: string, delim: char)

  function Before(text: string, t: Token): Token { t.(text := text + t.text) }

  function Skip(r: string): string {
    if r != "" && IsSpace(r[0]) then Skip(r[1..]) else r
  }

  // What one character writes, given the escape flag and the open quote.
  function Writes(c: char, esc: bool, q: char): string {
    if !esc && c == '\\' then ""
    else if esc then (if q != NONE && q != c then ['\\', c] else [c])
    else if q != NONE then (if c == q then "" else [c])
    else if c == '"' || c == '\'' then ""
    else [c]
  }

  function NextEsc(c: char, esc: bool): bool { !esc && c == '\\' }

  function NextQuote(c: char, esc: bool, q: char): char {
    if esc || c == '\\' then q
    else if q != NONE then (if c == q then NONE else q)
    else if c == '"' || c == '\'' then c
    else q
  }

  predicate Ends(c: char, esc: bool, q: char) { !esc && q == NONE && IsSpace(c) }

  /** The unbounded token at the start of r. */
  function Scan(r: string, esc: bool, q: char): Token {
    if r == "" then Token("", "", NONE)
    else if Ends(r[0], esc, q) then Token("", r[1..], r[0])
    else Before(Writes(r[0], esc, q), Scan(r[1..], NextEsc(r[0], esc), NextQuote(r[0], esc, q)))
  }

  function TokenAt(r: string): Token { Scan(Skip(r), false, NONE) }

  lemma {:induction false} ScanShrinks(r: string, esc: bool, q: char, t: Token)
    requires t == Scan(r, esc, q)
    ensures |t.rest| <= |r| && (r != "" ==> |t.rest| < |r|)
    decreases r
  {
    if r != "" && !Ends(r[0], esc, q) {
      var e, p := NextEsc(r[0], esc), NextQuote(r[0], esc, q);
      ScanShrinks(r[1..], e, p, Scan(r[1..], e, p));
    }
  }

  lemma {:induction false} SkipShrinks(r: string)
    ensures |Skip(r)| <= |r| && (Skip(r) != "" ==> !IsSpace(Skip(r)[0]))
  {
    if r != "" && IsSpace(r[0]) { SkipShrinks(r[1..]); }
  }

  /** The cursor strictly advances on non-empty input. */
  lemma TokenAdvances(r: string)
    requires r != ""
    ensures |TokenAt(r).rest| < |r|
  {
    SkipShrinks(r);
    ScanShrinks(Skip(r), false, NONE, TokenAt(r));
  }

  // ----- the tokeniser's loop

  function Min(a: nat, b: nat): nat { if a < b then a else b }

  // The buffer starts with the first n characters of the text.
  ghost predicate Copied(out: array<char>, n: nat, all: string)
    reads out
  {
    n <= out.Length && n <= |all| && forall k :: 0 <= k < n ==> out[k] == all[k]
  }

  // Append to a bounded buffer, counting what does not fit.
  method Put(out: array<char>, oi: nat, tl: nat, text: string, ghost all: string) returns (oi': nat, tl': nat)
    requires tl + |text| <= |all| && all[tl..tl + |text|] == text
    requires oi == Min(tl, out.Length) && Copied(out, oi, all)
    modifies out
    ensures tl' == tl + |text| && oi' == Min(tl', out.Length) && Copied(out, oi', all)
  {
    oi', tl' := oi, tl;
    for k := 0 to |text|
      invariant tl' == tl + k && oi' == Min(tl', out.Length) && Copied(out, oi', all)
    {
      assert all[tl..tl + |text|][k] == all[tl'];
      if oi' < out.Length {
        out[oi'] := text[k];
        oi' := oi' + 1;
      }
      tl' := tl' + 1;
    }
  }

  lemma SplitText(text: string, n: nat, w: string, tail: string)
    requires n <= |text| && text[n..] == w + tail
    ensures n + |w| <= |text| && text[n..n + |w|] == w && text[n + |w|..] == tail
  {
    assert |text| - n == |w| + |tail|;
    assert text[n..n + |w|] == text[n..][..|w|] == (w + tail)[..|w|];
    assert text[n + |w|..] == text[n..][|w|..] == (w + tail)[|w|..];
  }

  // What is left to scan is what is left of the token after n characters.
  ghost predicate Remains(r: string, esc: bool, q: char, t: Token, n: nat) {
    n <= |t.text| && Scan(r, esc, q) == Token(t.text[n..], t.rest, t.delim)
  }

  // One character: the end of the token, or what it writes.
  lemma ScanStep(r: string, r1: string, esc: bool, q: char, t: Token, n: nat, w: string)
    requires r != "" && r1 == r[1..] && w == Writes(r[0], esc, q) && Remains(r, esc, q, t, n)
    ensures Ends(r[0], esc, q) ==> n == |t.text| && r1 == t.rest && r[0] == t.delim
    ensures !Ends(r[0], esc, q) ==>
              && n + |w| <= |t.text| && t.text[n..n + |w|] == w
              && Remains(r1, NextEsc(r[0], esc), NextQuote(r[0], esc, q), t, n + |w|)
  {
    if !Ends(r[0], esc, q) {
      SplitText(t.text, n, w, Scan(r1, NextEsc(r[0], esc), NextQuote(r[0], esc, q)).text);
    }
  }

  lemma ScanEnds(esc: bool, q: char, t: Token, n: nat)
    requires Remains("", esc, q, t, n)
    ensures n == |t.text| && t.rest == "" && t.delim == NONE
  {
  }

  // The main loop, from the first character of the token.
  method ScanLoop(s: string, pos: nat, out: array<char>, ghost t: Token)
    returns (oi: nat, next: nat, toklen: nat, delim: char)
    requires pos <= |s| && t == Scan(s[pos..], false, NONE)
    modifies out
    ensures toklen == |t.text| && oi == Min(toklen, out.Length) && Copied(out, oi, t.text)
    ensures pos <= next <= |s| && s[next..] == t.rest && delim == t.delim
  {
    next := pos;
    var esc, q := false, NONE;
    toklen, oi, delim := 0, 0, NONE;
    ghost var r := s[pos..];     // what is left to scan
    while next < |s|
      invariant pos <= next <= |s| && r == s[next..] && Remains(r, esc, q, t, toklen)
      invariant oi == Min(toklen, out.Length) && Copied(out, oi, t.text)
    {
      var ch := s[next];
      var w := Writes(ch, esc, q);
      ScanStep(r, s[next + 1..], esc, q, t, toklen, w);
      r := s[next + 1..];
      if Ends(ch, esc, q) {
        next := next + 1;
        delim := ch;
        return;
      }
      oi, toklen := Put(out, oi, toklen, w, t.text);
      esc, q := NextEsc(ch, esc), NextQuote(ch, esc, q);
      next := next + 1;
    }
    assert s[next..] == "";
    ScanEnds(esc, q, t, toklen);
  }

  /**
   * The bounded output is exactly the prefix of the unbounded token that
   * fits; the length, the cursor and the delimiter are those of the token.
   */
  method SimpleWordexp(s: string, pos: nat, out: array<char>) returns (oi: nat, next: nat, toklen: nat, delim: char)
    requires pos <= |s| && NONE !in s
    modifies out
    ensures var t := TokenAt(s[pos..]);
            && toklen == |t.text| && oi == Min(toklen, out.Length) && out[..oi] == t.text[..oi]
            && pos <= next <= |s| && s[next..] == t.rest && delim == t.delim
  {
    var start := pos;
    while start < |s| && IsSpace(s[start])
      invariant pos <= start <= |s| && Skip(s[start..]) == Skip(s[pos..])
    {
      assert s[start..][1..] == s[start + 1..];
      start := start + 1;
    }
    assert Skip(s[start..]) == s[start..];
    oi, next, toklen, delim := ScanLoop(s, start, out, TokenAt(s[pos..]));
  }

  // ----- cutting a script into commands

  // The arguments read on one line, whether one was too long, and what is left.
  datatype Line = Line(args: seq<string>, tooLong: bool, rest: string)

  // `n` arguments have been read, and `delim` ended the last one.
  function ReadLine(r: string, n: nat, delim: char): Line
    decreases |r|
  {
    if n >= ARG_MAX || r == "" || delim == '\n' then Line([], false, r)
    else
      TokenAdvances(r);
      var t := TokenAt(r);
      var l := ReadLine(t.rest, n + 1, t.delim);
      Line([t.text] + l.args, l.tooLong || |t.text| >= TOKEN_LEN, l.rest)
  }

  lemma {:induction false} ReadLineShrinks(r: string, n: nat, delim: char, l: Line)
    requires l == ReadLine(r, n, delim)
    ensures |l.rest| <= |r| && (n < ARG_MAX && r != "" && delim != '\n' ==> |l.rest| < |r|)
    decreases |r|
  {
    if !(n >= ARG_MAX || r == "" || delim == '\n') {
      var t := TokenAt(r);
      TokenAdvances(r);
      ReadLineShrinks(t.rest, n + 1, t.delim, ReadLine(t.rest, n + 1, t.delim));
    }
  }

  /** The argument vectors of a script, without the lines that are dropped. */
  function Commands(r: string): seq<seq<string>>
    decreases |r|
  {
    if r == "" then []
    else
      var l := ReadLine(r, 0, NONE);
      ReadLineShrinks(r, 0, NONE, l);
      (if l.tooLong || |l.args| < 1 || |l.args| >= ARG_MAX then [] else [l.args]) + Commands(l.rest)
  }

  // `args` and `argc` hold the part of the line `goal` that comes before `here`.
  ghost predicate Sofar(goal: Line, here: Line, argc: nat, args: seq<string>, ignore: bool) {
    && goal.rest == here.rest && |goal.args| == argc + |here.args|
    && goal.tooLong == (ignore || here.tooLong)
    && (!ignore ==> goal.args == args + here.args)
  }

  lemma SofarStep(goal: Line, here: Line, later: Line, text: string, argc: nat, args: seq<string>, ignore: bool)
    requires Sofar(goal, here, argc, args, ignore)
    requires here == Line([text] + later.args, later.tooLong || |text| >= TOKEN_LEN, later.rest)
    ensures var skip := ignore || |text| >= TOKEN_LEN;
            Sofar(goal, later, argc + 1, if skip then args else args + [text], skip)
  {
    assert args + ([text] + later.args) == (args + [text]) + later.args;
  }

  // The inner loop: one line into the argument vector.
  method CutLine(script: string, pos: nat) returns (args: seq<string>, argc: nat, ignore: bool, next: nat)
    requires pos <= |script| && NONE !in script
    ensures var l := ReadLine(script[pos..], 0, NONE);
            && argc == |l.args| && ignore == l.tooLong && (!ignore ==> args == l.args)
            && next <= |script| && script[next..] == l.rest
  {
    args, argc, ignore, next := [], 0, false, pos;
    var delim := NONE;
    ghost var goal := ReadLine(script[pos..], 0, NONE);
    ghost var here := goal;    // the line still to be read
    while argc < ARG_MAX && next < |script| && delim != '\n'
      invariant next <= |script| && here == ReadLine(script[next..], argc, delim)
      invariant Sofar(goal, here, argc, args, ignore)
      decreases |script| - next
    {
      var token := new char[TOKEN_LEN];
      ghost var t := TokenAt(script[next..]);
      ghost var later := LineUnfolds(script[next..], argc, delim, here, t);
      SofarStep(goal, here, later, t.text, argc, args, ignore);
      var sz, toklen;
      sz, next, toklen, delim := SimpleWordexp(script, next, token);
      argc := argc + 1;
      if sz == TOKEN_LEN {
        ignore := true;
      }
      if !ignore {
        assert token[..sz] == t.text;
        args := args + [token[..sz]];
      }
      here := later;
    }
  }

  lemma LineUnfolds(r: string, n: nat, delim: char, l: Line, t: Token) returns (later: Line)
    requires n < ARG_MAX && r != "" && delim != '\n' && l == ReadLine(r, n, delim) && t == TokenAt(r)
    ensures |t.rest| < |r| && later == ReadLine(t.rest, n + 1, t.delim)
    ensures l == Line([t.text] + later.args, later.tooLong || |t.text| >= TOKEN_LEN, later.rest)
  {
    TokenAdvances(r);
    later := ReadLine(t.rest, n + 1, t.delim);
  }

  lemma CommandsUnfold(r: string, l: Line, all: seq<seq<string>>)
    requires r != "" && l == ReadLine(r, 0, NONE) && all == Commands(r)
    ensures |l.rest| < |r|
    ensures all == (if l.tooLong || |l.args| < 1 || |l.args| >= ARG_MAX then [] else [l.args]) + Commands(l.rest)
  {
    ReadLineShrinks(r, 0, NONE, l);
  }

  /** The outer loop cuts the script into its commands. */
  method CutScript(script: string) returns (cmds: seq<seq<string>>)
    requires NONE !in script
    ensures cmds == Commands(script)
  {
    cmds := [];
    var pos := 0;
    ghost var todo := Commands(script);
    assert script[0..] == script;
    while pos < |script|
      invariant pos <= |script| && todo == Commands(script[pos..])
      invariant cmds + todo == Commands(script)
      decreases |script| - pos
    {
      ghost var r := script[pos..];
      CommandsUnfold(r, ReadLine(r, 0, NONE), todo);
      var args, argc, ignore, next := CutLine(script, pos);
      if !(ignore || argc < 1 || argc >= ARG_MAX) {
        cmds := cmds + [args];
      }
      pos := next;
      todo := Commands(script[pos..]);
    }
  }

  // ----- printing a script

  function Escape(t: string): string {
    if t == "" then "" else ['\\', t[0]] + Escape(t[1..])
  }

  function PrintLine(args: seq<string>): string {
    if args == [] then ""
    else if |args| == 1 then Escape(args[0])
    else Escape(args[0]) + ([' '] + PrintLine(args[1..]))
  }

  function PrintScript(cmds: seq<seq<string>>): string {
    if cmds == [] then ""
    else if |cmds| == 1 then PrintLine(cmds[0])
    else PrintLine(cmds[0]) + (['\n'] + PrintScript(cmds[1..]))
  }

  // Non-empty tokens that fit the token buffer, few enough for the argument vector.
  predicate Printable(args: seq<string>) {
    && 1 <= |args| < ARG_MAX
    && forall i :: 0 <= i < |args| ==> 1 <= |args[i]| < TOKEN_LEN
  }

  // An escaped character outside quotes stands for itself.
  lemma ScanPair(text: string, r1: string, r2: string)
    requires |text| >= 2 && text[0] == '\\' && r1 == text[1..] && r2 == text[2..]
    ensures Scan(text, false, NONE) == Before([text[1]], Scan(r2, false, NONE))
  {
    assert r1[1..] == r2;
    var x := Before([text[1]], Scan(r2, false, NONE));
    assert Scan(r1, true, NONE) == x;
    assert Scan(text, false, NONE) == Before("", x);
    assert "" + x.text == x.text;
  }

  lemma EscapeCons(t: string, r: string, text: string)
    requires t != "" && text == Escape(t) + r
    ensures |text| >= 2 && text[0] == '\\' && text[1] == t[0] && text[2..] == Escape(t[1..]) + r
  {
    var p, e := ['\\', t[0]], Escape(t[1..]);
    assert Escape(t) == p + e;
    DropTwo(p, e, r, text);
  }

  lemma DropTwo(p: string, e: string, r: string, text: string)
    requires |p| == 2 && text == (p + e) + r
    ensures |text| >= 2 && text[0] == p[0] && text[1] == p[1] && text[2..] == e + r
  {
  }

  lemma EscapedStep(t: string, r: string, text: string, out: Token) returns (more: string, next: Token)
    requires t != "" && text == Escape(t) + r && out == Scan(text, false, NONE)
    ensures more == Escape(t[1..]) + r && next == Scan(more, false, NONE) && out == Before([t[0]], next)
  {
    EscapeCons(t, r, text);
    more := text[2..];
    next := Scan(more, false, NONE);
    ScanPair(text, text[1..], more);
  }

  lemma BeforeTwice(t: string, tail: Token, next: Token)
    requires t != "" && next == Before(t[1..], tail)
    ensures Before([t[0]], next) == Before(t, tail)
  {
    assert [t[0]] + (t[1..] + tail.text) == t + tail.text;
  }

  lemma {:induction false} ScanEscaped(t: string, r: string, text: string, tail: Token, out: Token)
    requires text == Escape(t) + r && tail == Scan(r, false, NONE) && out == Scan(text, false, NONE)
    ensures out == Before(t, tail)
    decreases t
  {
    if t == "" {
      assert text == r;
      assert "" + tail.text == tail.text;
    } else {
      var more, next := EscapedStep(t, r, text, out);
      ScanEscaped(t[1..], r, more, tail, next);
      BeforeTwice(t, tail, next);
    }
  }

  // A printed token, up to the separator that follows it.
  lemma TokenOfPrinted(t: string, r: string)
    requires t != "" && (r == "" || IsSpace(r[0]))
    ensures TokenAt(Escape(t) + r) == Token(t, if r == "" then "" else r[1..], if r == "" then NONE else r[0])
  {
    var text := Escape(t) + r;
    ScanEscaped(t, r, text, Scan(r, false, NONE), Scan(text, false, NONE));
    EscapeCons(t, r, text);
    assert Skip(text) == text;
    assert t + "" == t;
  }

  // The text that follows a printed line.
  predicate LineEnd(r: string) { r == "" || r[0] == '\n' }

  function AfterEnd(r: string): string
    requires LineEnd(r)
  {
    if r == "" then "" else r[1..]
  }

  // The first of several printed arguments.
  lemma FirstPrinted(args: seq<string>, r: string, n: nat, delim: char, l: Line) returns (more: string, later: Line)
    requires |args| > 1 && n + 1 < ARG_MAX && delim != '\n' && 1 <= |args[0]| < TOKEN_LEN
    requires l == ReadLine(PrintLine(args) + r, n, delim)
    ensures more == PrintLine(args[1..]) + r && later == ReadLine(more, n + 1, ' ')
    ensures l == Line([args[0]] + later.args, later.tooLong, later.rest)
  {
    var t := args[0];
    more := PrintLine(args[1..]) + r;
    var r1 := [' '] + more;
    assert PrintLine(args) + r == Escape(t) + r1;
    assert r1[1..] == more;
    TokenOfPrinted(t, r1);
    assert Escape(t) + r1 != "";
    later := LineUnfolds(Escape(t) + r1, n, delim, l, TokenAt(Escape(t) + r1));
  }

  lemma LastPrinted(t: string, r: string, n: nat, delim: char, l: Line)
    requires n + 1 < ARG_MAX && LineEnd(r) && delim != '\n' && 1 <= |t| < TOKEN_LEN
    requires l == ReadLine(Escape(t) + r, n, delim)
    ensures l == Line([t], false, AfterEnd(r))
  {
    TokenOfPrinted(t, r);
    assert Escape(t) != "";
    var later := LineUnfolds(Escape(t) + r, n, delim, l, TokenAt(Escape(t) + r));
    assert later == Line([], false, AfterEnd(r));
    assert [t] + [] == [t];
  }

  lemma {:induction false} ReadPrinted(args: seq<string>, r: string, n: nat, delim: char, l: Line)
    requires args != [] && n + |args| < ARG_MAX && LineEnd(r) && delim != '\n'
    requires forall i :: 0 <= i < |args| ==> 1 <= |args[i]| < TOKEN_LEN
    requires l == ReadLine(PrintLine(args) + r, n, delim)
    ensures l == Line(args, false, AfterEnd(r))
    decreases args
  {
    if |args| == 1 {
      LastPrinted(args[0], r, n, delim, l);
    } else {
      var more, later := FirstPrinted(args, r, n, delim, l);
      ReadPrinted(args[1..], r, n + 1, ' ', later);
      assert args == [args[0]] + args[1..];
    }
  }

  /** Cutting a printed script gives back its commands. */
  lemma {:induction false} ScriptRoundTrip(cmds: seq<seq<string>>, out: seq<seq<string>>)
    requires forall i :: 0 <= i < |cmds| ==> Printable(cmds[i])
    requires out == Commands(PrintScript(cmds))
    ensures out == cmds
    decreases cmds
  {
    if cmds != [] {
      var r := if |cmds| == 1 then "" else ['\n'] + PrintScript(cmds[1..]);
      var text := PrintScript(cmds);
      assert text == PrintLine(cmds[0]) + r;
      var l := ReadLine(text, 0, NONE);
      ReadPrinted(cmds[0], r, 0, NONE, l);
      assert text != "" by { assert Escape(cmds[0][0]) != ""; }
      assert AfterEnd(r) == PrintScript(cmds[1..]);
      ScriptRoundTrip(cmds[1..], Commands(AfterEnd(r)));
      assert out == [l.args] + Commands(l.rest);
    }
  }

  // A line with more arguments than the vector holds stops in the middle.
  lemma {:induction false} ReadSpills(args: seq<string>, n: nat, delim: char, l: Line)
    requires n <= ARG_MAX < n + |args| && delim != '\n'
    requires forall i :: 0 <= i < |args| ==> 1 <= |args[i]| < TOKEN_LEN
    requires l == ReadLine(PrintLine(args), n, delim)
    ensures l == Line(args[..ARG_MAX - n], false, PrintLine(args[ARG_MAX - n..]))
    decreases args
  {
    if n < ARG_MAX {
      var t, text := args[0], PrintLine(args);
      var r1 := [' '] + PrintLine(args[1..]);
      assert text == Escape(t) + r1 && r1[1..] == PrintLine(args[1..]);
      TokenOfPrinted(t, r1);
      EscapeCons(t, r1, text);
      var later := LineUnfolds(text, n, delim, l, TokenAt(text));
      ReadSpills(args[1..], n + 1, ' ', later);
      assert args[..ARG_MAX - n] == [t] + args[1..][..ARG_MAX - n - 1];
      assert args[ARG_MAX - n..] == args[1..][ARG_MAX - n - 1..];
    } else {
      assert args[..0] == [] && args[0..] == args;
    }
  }

  /**
   * A line is not always one command: one of more than 32 arguments is
   * dropped, and its arguments from the 33rd on are read as a new line.
   */
  lemma LongLineSpills(args: seq<string>, out: seq<seq<string>>)
    requires |args| > 32 && forall i :: 0 <= i < |args| ==> 1 <= |args[i]| < TOKEN_LEN
    requires out == Commands(PrintLine(args))
    ensures out == Commands(PrintLine(args[32..]))
  {
    var text := PrintLine(args);
    var l := ReadLine(text, 0, NONE);
    ReadSpills(args, 0, NONE, l);
    assert text != "" by { assert Escape(args[0]) != ""; }
    CommandsUnfold(text, l, out);
    assert [] + Commands(l.rest) == Commands(l.rest);
  }

  /** Whatever the script, every command fits the argument vector and the token buffers. */
  lemma {:induction false} CommandsFit(r: string, cmds: seq<seq<string>>)
    requires cmds == Commands(r)
    ensures forall i :: 0 <= i < |cmds| ==>
              1 <= |cmds[i]| < 32 && forall j :: 0 <= j < |cmds[i]| ==> |cmds[i][j]| < 512
    decreases |r|
  {
    if r != "" {
      var l := ReadLine(r, 0, NONE);
      CommandsUnfold(r, l, cmds);
      CommandsFit(l.rest, Commands(l.rest));
      ArgsFit(r, 0, NONE, l);
    }
  }

  lemma {:induction false} ArgsFit(r: string, n: nat, delim: char, l: Line)
    requires l == ReadLine(r, n, delim)
    ensures !l.tooLong ==> forall j :: 0 <= j < |l.args| ==> |l.args[j]| < TOKEN_LEN
    decreases |r|
  {
    if n < ARG_MAX && r != "" && delim != '\n' {
      var t := TokenAt(r);
      var later := LineUnfolds(r, n, delim, l, t);
      ArgsFit(t.rest, n + 1, t.delim, later);
    }
  }

  /**
   * Exactly which scripts of non-empty tokens survive printing and cutting:
   * those whose lines have 1 to 31 arguments, each short enough for its buffer.
   */
  lemma SurvivesIffPrintable(cmds: seq<seq<string>>)
    requires forall i, j :: 0 <= i < |cmds| && 0 <= j < |cmds[i]| ==> cmds[i][j] != ""
    ensures Commands(PrintScript(cmds)) == cmds <==>
            forall i :: 0 <= i < |cmds| ==> 1 <= |cmds[i]| < 32 && forall j :: 0 <= j < |cmds[i]| ==> |cmds[i][j]| < 512
  {
    if Commands(PrintScript(cmds)) == cmds {
      CommandsFit(PrintScript(cmds), cmds);
    } else if forall i :: 0 <= i < |cmds| ==> Printable(cmds[i]) {
      ScriptRoundTrip(cmds, Commands(PrintScript(cmds)));
    }
  }

  // ----- quotes, escapes and blanks

  predicate IsQuote(c: char) { c == '"' || c == '\'' }

  /** Six characters separate tokens. */
  lemma Blanks(c: char)
    ensures IsSpace(c) <==> c as int in {9, 10, 11, 12, 13, 32}
  {
  }

  // A text between quotes: the quote itself is escaped.
  function Quoted(t: string, q: char): string {
    if t == "" then "" else (if t[0] == q then ['\\', q] else [t[0]]) + Quoted(t[1..], q)
  }

  // The first character of a quoted text, as it is written and as it is read.
  lemma QuotedStep(c: char, q: char, r: string, text: string, next: Token)
    requires IsQuote(q) && c != '\\' && text == (if c == q then ['\\', q] else [c]) + r && next == Scan(r, false, q)
    ensures Scan(text, false, q) == Before([c], next)
  {
    if c == q {
      assert text[1..] == [q] + r && text[1..][1..] == r;
      assert Scan(text[1..], true, q) == Before([q], next);
      assert "" + ([q] + next.text) == [c] + next.text;
    } else {
      assert text[1..] == r;
    }
  }

  lemma QuotedHead(t: string, q: char, r: string, text: string, out: Token) returns (rest: string, next: Token)
    requires t != "" && IsQuote(q) && '\\' !in t && text == Quoted(t, q) + r && out == Scan(text, false, q)
    ensures rest == Quoted(t[1..], q) + r && next == Scan(rest, false, q) && out == Before([t[0]], next)
  {
    rest := Quoted(t[1..], q) + r;
    next := Scan(rest, false, q);
    var head := if t[0] == q then ['\\', q] else [t[0]];
    assert text == head + rest;
    QuotedStep(t[0], q, rest, text, next);
  }

  /** Between quotes everything up to the closing quote is text, blanks and the other quote included. */
  lemma {:induction false} ScanQuoted(t: string, q: char, r: string, text: string, after: Token, out: Token)
    requires IsQuote(q) && '\\' !in t && text == Quoted(t, q) + ([q] + r)
    requires after == Scan(r, false, NONE) && out == Scan(text, false, q)
    ensures out == Before(t, after)
    decreases t
  {
    if t == "" {
      assert text == [q] + r && text[1..] == r;
      assert "" + after.text == after.text;
    } else {
      var rest, next := QuotedHead(t, q, [q] + r, text, out);
      ScanQuoted(t[1..], q, r, rest, after, next);
      BeforeTwice(t, after, next);
    }
  }

  /** A quoted text is one token, up to the blank that follows. */
  lemma QuotedToken(t: string, q: char, r: string)
    requires IsQuote(q) && '\\' !in t && (r == "" || IsSpace(r[0]))
    ensures TokenAt([q] + Quoted(t, q) + [q] + r)
            == Token(t, if r == "" then "" else r[1..], if r == "" then NONE else r[0])
  {
    var body := Quoted(t, q) + ([q] + r);
    var text := [q] + Quoted(t, q) + [q] + r;
    assert text == [q] + body && text[1..] == body;
    var after := Scan(r, false, NONE);
    ScanQuoted(t, q, r, body, after, Scan(body, false, q));
    assert !IsSpace(q) && Skip(text) == text;
    assert t + "" == t && "" + t == t;
  }

  lemma {:induction false} QuotedPlain(t: string, q: char)
    requires q !in t
    ensures Quoted(t, q) == t
  {
    if t != "" {
      QuotedPlain(t[1..], q);
      assert [t[0]] + t[1..] == t;
    }
  }

  /** The same for a text without the quote, written as it is. */
  lemma PlainQuotedToken(t: string, q: char, r: string)
    requires IsQuote(q) && q !in t && '\\' !in t && (r == "" || IsSpace(r[0]))
    ensures TokenAt([q] + t + [q] + r) == Token(t, if r == "" then "" else r[1..], if r == "" then NONE else r[0])
  {
    QuotedPlain(t, q);
    QuotedToken(t, q, r);
  }

  /** Between quotes an escaped quote of the same kind loses its backslash; any other escaped character keeps it. */
  lemma EscapeInQuotes(c: char, q: char, r: string)
    requires IsQuote(q)
    ensures Scan(['\\', c] + r, false, q) == Before(if c == q then [c] else ['\\', c], Scan(r, false, q))
  {
    var text := ['\\', c] + r;
    assert text[1..] == [c] + r && text[1..][1..] == r;
    var x := Scan([c] + r, true, q);
    assert "" + x.text == x.text;
  }

  /** Outside quotes plain characters stand for themselves. */
  lemma {:induction false} PlainToken(t: string, r: string, text: string, after: Token)
    requires text == t + r && after == Scan(r, false, NONE)
    requires forall c :: c in t ==> !IsSpace(c) && !IsQuote(c) && c != '\\'
    ensures Scan(text, false, NONE) == Before(t, after)
    decreases t
  {
    if t == "" {
      assert text == r && "" + after.text == after.text;
    } else {
      assert t[0] in t && text[1..] == t[1..] + r;
      PlainToken(t[1..], r, text[1..], after);
      assert [t[0]] + (t[1..] + after.text) == t + after.text;
    }
  }
}
