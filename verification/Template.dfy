/** Expanding %p and %% in the on-timeout hook command: three string replacements
    against one left-to-right scan. */
module Template {
  const NUL: char := '\0'
  const PLACEHOLDER: string := "\0PERCENT\0"

  /** Replace every occurrence of pat, scanning from the left without overlap. */
  function Replace(s: string, pat: string, rep: string): string
    requires pat != ""
  {
    if s == "" then ""
    else if pat <= s then rep + Replace(s[|pat|..], pat, rep)
    else [s[0]] + Replace(s[1..], pat, rep)
  }

  function Digit(d: nat): char
    requires d < 10
  {
    "0123456789"[d]
  }

  function Decimal(n: nat): (s: string)
    ensures s != "" && forall i :: 0 <= i < |s| ==> '0' <= s[i] <= '9'
  {
    if n < 10 then [Digit(n)] else Decimal(n / 10) + [Digit(n % 10)]
  }

  /** What the program computes: protect %%, insert the pid, restore the %. */
  function ExpandByReplacing(cmd: string, pid: nat): string {
    Replace(Replace(Replace(cmd, "%%", PLACEHOLDER), "%p", Decimal(pid)), PLACEHOLDER, "%")
  }

  /** What is meant: %% is a percent sign, %p the pid, all else stands. */
  function Expand(cmd: string, pid: nat): string {
    if cmd == "" then ""
    else if "%%" <= cmd then "%" + Expand(cmd[2..], pid)
    else if "%p" <= cmd then Decimal(pid) + Expand(cmd[2..], pid)
    else [cmd[0]] + Expand(cmd[1..], pid)
  }

  /** The command contains text that would be taken for the placeholder: a NUL and
      the word PERCENT, followed by a NUL or by a %% (whose own placeholder
      starts with one). */
  predicate LooksLikePlaceholder(cmd: string) {
    "\0PERCENT\0" <= cmd || "\0PERCENT%%" <= cmd
  }

  /** Nowhere outside its %% and %p does the command look like the placeholder. */
  predicate Clean(cmd: string) {
    if cmd == "" then true
    else if "%%" <= cmd || "%p" <= cmd then Clean(cmd[2..])
    else !LooksLikePlaceholder(cmd) && Clean(cmd[1..])
  }

  // ----- proofs

  /** The string after the first two replacements, token by token. */
  function Protected(cmd: string, pid: nat): string {
    if cmd == "" then ""
    else if "%%" <= cmd then PLACEHOLDER + Protected(cmd[2..], pid)
    else if "%p" <= cmd then Decimal(pid) + Protected(cmd[2..], pid)
    else [cmd[0]] + Protected(cmd[1..], pid)
  }

  /** Text without the first character of a pattern is copied. */
  lemma {:induction false} ReplaceSkips(text: string, rest: string, pat: string, rep: string)
    requires pat != "" && pat[0] !in text
    ensures Replace(text + rest, pat, rep) == text + Replace(rest, pat, rep)
  {
    if text == "" {
      assert text + rest == rest;
    } else {
      ReplaceSkips(text[1..], rest, pat, rep);
      var s := text + rest;
      assert s[0] == text[0] && s[1..] == text[1..] + rest;
      assert !(pat <= s);
      assert text == [text[0]] + text[1..];
    }
  }

  lemma ReplaceHit(rest: string, pat: string, rep: string)
    requires pat != ""
    ensures Replace(pat + rest, pat, rep) == rep + Replace(rest, pat, rep)
  {
    var s := pat + rest;
    assert pat <= s && s[|pat|..] == rest;
  }

  lemma ReplaceMiss(c: char, rest: string, pat: string, rep: string)
    requires pat != "" && !(pat <= [c] + rest)
    ensures Replace([c] + rest, pat, rep) == [c] + Replace(rest, pat, rep)
  {
    var s := [c] + rest;
    assert s[0] == c && s[1..] == rest;
  }

  /** The first two replacements act on disjoint tokens. */
  lemma {:induction false} TwoReplacementsProtect(cmd: string, pid: nat)
    ensures Replace(Replace(cmd, "%%", PLACEHOLDER), "%p", Decimal(pid)) == Protected(cmd, pid)
  {
    var p := Decimal(pid);
    if cmd == "" {
    } else if "%%" <= cmd {
      TwoReplacementsProtect(cmd[2..], pid);
      ReplaceSkips(PLACEHOLDER, Replace(cmd[2..], "%%", PLACEHOLDER), "%p", p);
    } else if "%p" <= cmd {
      TwoReplacementsProtect(cmd[2..], pid);
      var rest := Replace(cmd[2..], "%%", PLACEHOLDER);
      assert cmd[1..][0] == 'p' && cmd[1..][1..] == cmd[2..];
      assert Replace(cmd[1..], "%%", PLACEHOLDER) == "p" + rest;
      assert Replace(cmd, "%%", PLACEHOLDER) == "%" + ("p" + rest) == "%p" + rest;
      ReplaceHit(rest, "%p", p);
    } else {
      TwoReplacementsProtect(cmd[1..], pid);
      var rest := Replace(cmd[1..], "%%", PLACEHOLDER);
      assert !("%p" <= [cmd[0]] + rest);
      ReplaceMiss(cmd[0], rest, "%p", p);
    }
  }

  /** Letters in the protected string come from the same letters in the command. */
  lemma {:induction false} LettersComeFromTheCommand(word: string, cmd: string, pid: nat)
    requires forall i :: 0 <= i < |word| ==> 'A' <= word[i] <= 'Z'
    ensures word + [NUL] <= Protected(cmd, pid)
            <==> word <= cmd && [NUL] <= Protected(cmd[|word|..], pid)
  {
    if word == "" {
      assert word + [NUL] == [NUL] && cmd[0..] == cmd;
    } else {
      var out := Protected(cmd, pid);
      if cmd == "" {
      } else if "%%" <= cmd {
        assert out[0] == NUL;
      } else if "%p" <= cmd {
        assert '0' <= out[0] <= '9';
      } else {
        LettersComeFromTheCommand(word[1..], cmd[1..], pid);
        assert word == [word[0]] + word[1..];
        assert out == [cmd[0]] + Protected(cmd[1..], pid);
        assert out[1..] == Protected(cmd[1..], pid);
        assert word + [NUL] == [word[0]] + (word[1..] + [NUL]);
        assert word + [NUL] <= out <==> word[0] == cmd[0] && word[1..] + [NUL] <= out[1..];
        assert word <= cmd <==> word[0] == cmd[0] && word[1..] <= cmd[1..];
        if word <= cmd { assert cmd[|word|..] == cmd[1..][|word[1..]|..]; }
      }
    }
  }

  /** At an ordinary character, the placeholder appears exactly if the command
      looks like it there. */
  lemma PlaceholderAppearsIffItLooksLikeIt(cmd: string, pid: nat)
    requires cmd != "" && !("%%" <= cmd) && !("%p" <= cmd)
    ensures PLACEHOLDER <= Protected(cmd, pid) <==> LooksLikePlaceholder(cmd)
  {
    var word, rest, tail := "PERCENT", cmd[1..], Protected(cmd[1..], pid);
    assert Protected(cmd, pid) == [cmd[0]] + tail && cmd == [cmd[0]] + rest;
    assert PLACEHOLDER == "\0PERCENT\0" == [NUL] + (word + [NUL]);
    assert "\0PERCENT%%" == [NUL] + (word + "%%");
    if cmd[0] == NUL {
      SamePrefix([NUL], word + [NUL], tail);
      SamePrefix([NUL], word + [NUL], rest);
      SamePrefix([NUL], word + "%%", rest);
      SplitPrefix(word, [NUL], rest);
      SplitPrefix(word, "%%", rest);
      LettersComeFromTheCommand(word, rest, pid);
      if word <= rest { ProtectedStartsWithNul(rest[|word|..], pid); }
    } else {
      assert ([cmd[0]] + tail)[0] == cmd[0] && ([NUL] + (word + [NUL]))[0] == NUL && ([NUL] + (word + "%%"))[0] == NUL;
    }
  }

  lemma ProtectedStartsWithNul(cmd: string, pid: nat)
    ensures [NUL] <= Protected(cmd, pid) <==> [NUL] <= cmd || "%%" <= cmd
  {
  }

  lemma SplitPrefix(head: string, a: string, s: string)
    ensures head + a <= s <==> head <= s && a <= s[|head|..]
  {
    if head <= s {
      assert s == head + s[|head|..];
      SamePrefix(head, a, s[|head|..]);
    }
    if head + a <= s {
      assert forall i :: 0 <= i < |head| ==> (head + a)[i] == head[i];
    }
  }

  lemma SamePrefix(head: string, a: string, b: string)
    ensures head + a <= head + b <==> a <= b
  {
    if head + a <= head + b {
      assert forall i :: 0 <= i < |a| ==> (head + a)[|head| + i] == a[i] && (head + b)[|head| + i] == b[i];
    }
    if a <= b {
      assert b == a + b[|a|..];
      assert head + b == (head + a) + b[|a|..];
    }
  }

  lemma {:induction false} LastReplacementRestores(cmd: string, pid: nat)
    ensures Replace(Protected(cmd, pid), PLACEHOLDER, "%") == Expand(cmd, pid) <==> Clean(cmd)
  {
    if cmd == "" {
    } else if "%%" <= cmd {
      LastReplacementRestores(cmd[2..], pid);
      ReplaceHit(Protected(cmd[2..], pid), PLACEHOLDER, "%");
      SameTails("%", Replace(Protected(cmd[2..], pid), PLACEHOLDER, "%"), Expand(cmd[2..], pid));
    } else if "%p" <= cmd {
      LastReplacementRestores(cmd[2..], pid);
      ReplaceSkips(Decimal(pid), Protected(cmd[2..], pid), PLACEHOLDER, "%");
      SameTails(Decimal(pid), Replace(Protected(cmd[2..], pid), PLACEHOLDER, "%"), Expand(cmd[2..], pid));
    } else {
      PlaceholderAppearsIffItLooksLikeIt(cmd, pid);
      var tail := Protected(cmd[1..], pid);
      assert Protected(cmd, pid) == [cmd[0]] + tail;
      if LooksLikePlaceholder(cmd) {
        assert Replace(Protected(cmd, pid), PLACEHOLDER, "%")[0] == '%';
        assert Expand(cmd, pid)[0] == cmd[0] == NUL;
      } else {
        LastReplacementRestores(cmd[1..], pid);
        ReplaceMiss(cmd[0], tail, PLACEHOLDER, "%");
        SameTails([cmd[0]], Replace(tail, PLACEHOLDER, "%"), Expand(cmd[1..], pid));
      }
    }
  }

  lemma SameTails(head: string, a: string, b: string)
    ensures head + a == head + b <==> a == b
  {
    assert (head + a)[|head|..] == a && (head + b)[|head|..] == b;
  }

  /** The three replacements are the scan, exactly for clean commands. */
  lemma ReplacingExpandsIffClean(cmd: string, pid: nat)
    ensures ExpandByReplacing(cmd, pid) == Expand(cmd, pid) <==> Clean(cmd)
  {
    TwoReplacementsProtect(cmd, pid);
    LastReplacementRestores(cmd, pid);
  }

  /** In particular for every command a program can be started with: none of
      those contains a NUL. */
  lemma {:induction false} CommandsWithoutNulAreClean(cmd: string)
    requires NUL !in cmd
    ensures Clean(cmd)
  {
    if cmd == "" {
    } else if "%%" <= cmd || "%p" <= cmd {
      CommandsWithoutNulAreClean(cmd[2..]);
    } else {
      CommandsWithoutNulAreClean(cmd[1..]);
      assert cmd[0] != NUL;
    }
  }

  lemma ReplacingExpandsEveryCommandLine(cmd: string, pid: nat)
    requires NUL !in cmd
    ensures ExpandByReplacing(cmd, pid) == Expand(cmd, pid)
  {
    CommandsWithoutNulAreClean(cmd);
    ReplacingExpandsIffClean(cmd, pid);
  }

  /** A library caller can pass a NUL, and then it matters. */
  lemma AnUncleanCommandGoesWrong(pid: nat)
    ensures ExpandByReplacing("\0PERCENT\0", pid) != Expand("\0PERCENT\0", pid)
  {
    var cmd := "\0PERCENT\0";
    assert cmd[0] == NUL && "%%"[0] != NUL && "%p"[0] != NUL;
    assert LooksLikePlaceholder(cmd);
    assert !Clean(cmd);
    ReplacingExpandsIffClean("\0PERCENT\0", pid);
  }
}
