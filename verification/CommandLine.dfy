/** The command line: options, then DURATION, then COMMAND and its arguments. */
module CommandLine {
  import opened Wrappers
  import DurationText

  datatype Flag = Json | PreserveStatus | Foreground | Verbose | Quiet | StdinPassthrough

  datatype Opt =
    | Signal | KillAfter | ExitCode | OnTimeout | OnTimeoutLimit | Confine | WaitForFile | WaitForFileTimeout
    | Retry | RetryDelay | RetryBackoff | Heartbeat | StdinTimeout | MemLimit | CpuTime | CpuPercent

  datatype Clock = Wall | Active

  /** The option record; `values` holds its plain text fields. */
  datatype Args = Args(
    flags: set<Flag>,
    values: map<Opt, string>,
    exitCode: Option<nat>,
    clock: Clock,
    clockGiven: bool,
    duration: Option<string>,
    command: Option<string>,
    args: seq<string>)

  const BLANK: Args := Args({}, map[Signal := "", OnTimeoutLimit := "5s"], None, Wall, false, None, None, [])

  /** Errors up to the wording of their messages. */
  datatype Error =
    | MissingValue(opt: Opt)
    | BadExitCode(text: string)
    | BadClock(text: string)
    | UnknownOption(text: string)
    | UnknownLetter(letter: char)
    | NotAlone(letter: char)
    | VerboseAndQuiet

  datatype Topic = Help | Version

  datatype Parsed = Done(args: Args) | Fail(error: Error) | Quit(topic: Topic)

  /** What a word means while options are still being read. */
  datatype Word = Page(topic: Topic) | Sets(flag: Flag) | Takes(opt: Opt) | Gives(opt: Opt, value: string)
                | Unknown | Cluster | Positional

  function Long(name: string): Option<Opt> {
    match name
    case "--signal" => Some(Signal)
    case "--kill-after" => Some(KillAfter)
    case "--timeout-exit-code" => Some(ExitCode)
    case "--on-timeout" => Some(OnTimeout)
    case "--on-timeout-limit" => Some(OnTimeoutLimit)
    case "--confine" => Some(Confine)
    case "--wait-for-file" => Some(WaitForFile)
    case "--wait-for-file-timeout" => Some(WaitForFileTimeout)
    case "--retry" => Some(Retry)
    case "--retry-delay" => Some(RetryDelay)
    case "--retry-backoff" => Some(RetryBackoff)
    case "--heartbeat" => Some(Heartbeat)
    case "--stdin-timeout" => Some(StdinTimeout)
    case "--mem-limit" => Some(MemLimit)
    case "--cpu-time" => Some(CpuTime)
    case "--cpu-percent" => Some(CpuPercent)
    case _ => None
  }

  function LongFlag(name: string): Option<Flag> {
    match name
    case "--json" => Some(Json)
    case "--preserve-status" => Some(PreserveStatus)
    case "--foreground" => Some(Foreground)
    case "--verbose" => Some(Verbose)
    case "--quiet" => Some(Quiet)
    case "--stdin-passthrough" => Some(StdinPassthrough)
    case _ => None
  }

  function FlagLetter(c: char): Option<Flag> {
    match c
    case 'p' => Some(PreserveStatus)
    case 'f' => Some(Foreground)
    case 'v' => Some(Verbose)
    case 'q' => Some(Quiet)
    case _ => None
  }

  function ValueLetter(c: char): Option<Opt> {
    match c
    case 's' => Some(Signal)
    case 'k' => Some(KillAfter)
    case 'c' => Some(Confine)
    case 'r' => Some(Retry)
    case 'H' => Some(Heartbeat)
    case 'S' => Some(StdinTimeout)
    case _ => None
  }

  function FindEquals(s: string): (r: nat)
    ensures r <= |s| && (r < |s| ==> s[r] == '=')
  {
    if s == "" || s[0] == '=' then 0 else 1 + FindEquals(s[1..])
  }

  function LongWord(s: string): Word {
    if s == "--help" then Page(Help)
    else if s == "--version" then Page(Version)
    else if LongFlag(s).Some? then Sets(LongFlag(s).value)
    else if Long(s).Some? then Takes(Long(s).value)
    else
      var at := FindEquals(s);
      if at < |s| && Long(s[..at]).Some? then Gives(Long(s[..at]).value, s[at + 1..]) else Unknown
  }

  /** The short options known on their own; -r is known in clusters only. */
  function ShortWord(c: char): Word {
    if c == 'h' then Page(Help)
    else if c == 'V' then Page(Version)
    else if FlagLetter(c).Some? then Sets(FlagLetter(c).value)
    else if ValueLetter(c).Some? && c != 'r' then Takes(ValueLetter(c).value)
    else Cluster
  }

  function Classify(s: string): Word {
    if |s| < 2 || s[0] != '-' then Positional
    else if s[1] == '-' then LongWord(s)
    else if |s| == 2 then ShortWord(s[1])
    else Cluster
  }

  /** The standard library's reading of an unsigned 8-bit number. */
  function ParseU8(s: string): Option<nat> {
    match DurationText.ParseU128(s)
    case Some(n) => if n <= 255 then Some(n) else None
    case None => None
  }

  function SetValue(r: Args, opt: Opt, text: string): Result<Args, Error> {
    match opt
    case ExitCode =>
      (match ParseU8(text)
       case Some(n) => Ok(r.(exitCode := Some(n)))
       case None => Err(BadExitCode(text)))
    case Confine =>
      var mode := DurationText.Lower(text);
      if mode == "wall" then Ok(r.(clock := Wall, clockGiven := true))
      else if mode == "active" then Ok(r.(clock := Active, clockGiven := true))
      else Err(BadClock(text))
    case _ => Ok(r.(values := r.values[opt := text]))
  }

  function AddFlag(r: Args, f: Flag): Args { r.(flags := r.flags + {f}) }

  /** After a separator words go to the command only. */
  function AddToCommand(r: Args, word: string): Args {
    if r.command.None? then r.(command := Some(word)) else r.(args := r.args + [word])
  }

  function AddPositional(r: Args, word: string): Args {
    if r.duration.None? then r.(duration := Some(word)) else AddToCommand(r, word)
  }

  /** After a cluster: the record, and how many of the following words it used. */
  datatype Walk = Walked(r: Args, used: nat) | Stopped(error: Error)

  /** The letters of a cluster, one by one; `next` is the word that follows it. */
  function Letters(r: Args, letters: string, next: Option<string>): Walk
    decreases |letters|
  {
    if letters == "" then Walked(r, 0)
    else
      var c, rest := letters[0], letters[1..];
      if c == 'h' || c == 'V' then Stopped(NotAlone(c))
      else
        match (FlagLetter(c), ValueLetter(c))
        case (Some(f), _) => Letters(AddFlag(r, f), rest, next)
        case (None, None) => Stopped(UnknownLetter(c))
        case (None, Some(opt)) =>
          if rest != "" then
            (match SetValue(r, opt, rest)
             case Ok(r1) => Walked(r1, 0)
             case Err(e) => Stopped(e))
          else if next == None then Stopped(MissingValue(opt))
          else
            (match SetValue(r, opt, next.value)
             case Ok(r1) => Walked(r1, 1)
             case Err(e) => Stopped(e))
  }

  function First(words: seq<string>): (w: Option<string>)
    ensures w.Some? <==> words != []
  {
    if words == [] then None else Some(words[0])
  }

  /** Parsing the words that remain. */
  function Run(r: Args, separated: bool, words: seq<string>): Parsed
    decreases |words|
  {
    if words == [] then Done(r)
    else
      var word, rest := words[0], words[1..];
      if separated then Run(AddToCommand(r, word), true, rest)
      else if word == "--" then Run(r, true, rest)
      else if r.command.Some? then Run(AddToCommand(r, word), false, rest)
      else
        match Classify(word)
        case Page(topic) => Quit(topic)
        case Sets(flag) => Run(AddFlag(r, flag), false, rest)
        case Takes(opt) =>
          if rest == [] then Fail(MissingValue(opt))
          else
            (match SetValue(r, opt, rest[0])
             case Ok(r1) => Run(r1, false, rest[1..])
             case Err(e) => Fail(e))
        case Gives(opt, value) =>
          (match SetValue(r, opt, value)
           case Ok(r1) => Run(r1, false, rest)
           case Err(e) => Fail(e))
        case Unknown => Fail(UnknownOption(word))
        case Positional => Run(AddPositional(r, word), false, rest)
        case Cluster =>
          if r.duration.Some? || DurationText.IsDigit(word[1]) then Run(AddPositional(r, word), false, rest)
          else
            match Letters(r, word[1..], First(rest))
            case Walked(r1, used) => Run(r1, false, if used == 0 || rest == [] then rest else rest[1..])
            case Stopped(e) => Fail(e)
  }

  function Finish(p: Parsed): Parsed {
    if p.Done? && Verbose in p.args.flags && Quiet in p.args.flags then Fail(VerboseAndQuiet) else p
  }

  function Parse(words: seq<string>): Parsed { Finish(Run(BLANK, false, words)) }

  // ----- the two loops

  /** The walk over a cluster's letters. */
  method WalkCluster(word: string, words: seq<string>, at: nat, start: Args) returns (result: Args, i: nat, error: Option<Error>)
    requires |word| > 1 && at < |words|
    ensures at <= i <= at + 1 && i < |words|
    ensures Letters(start, word[1..], First(words[at + 1..])) ==
              match error case Some(e) => Stopped(e) case None => Walked(result, i - at)
  {
    result, i, error := start, at, None;
    var j := 1;
    while j < |word|
      invariant 1 <= j <= |word| && i == at && error == None
      invariant Letters(start, word[1..], First(words[at + 1..])) == Letters(result, word[j..], First(words[at + 1..]))
    {
      assert word[j..][1..] == word[j + 1..];
      var c := word[j];
      if c == 'h' || c == 'V' {
        error := Some(NotAlone(c));
        return;
      }
      match FlagLetter(c) {
        case Some(f) => result := AddFlag(result, f);
        case None =>
          var opt := ValueLetter(c);
          if opt == None {
            error := Some(UnknownLetter(c));
            return;
          }
          var text;
          if j + 1 < |word| {
            text := word[j + 1..];
          } else if at + 1 < |words| {
            i := at + 1;
            text := words[i];
          } else {
            error := Some(MissingValue(opt.value));
            return;
          }
          match SetValue(result, opt.value, text) {
            case Ok(r) => result := r;
            case Err(e) => error := Some(e);
          }
          return;
      }
      j := j + 1;
    }
  }

  /** The main loop over the words. */
  method ParseFromSlice(words: seq<string>) returns (parsed: Parsed)
    ensures parsed == Parse(words)
  {
    var result, i, separated := BLANK, 0, false;
    while i < |words|
      invariant 0 <= i <= |words|
      invariant Run(BLANK, false, words) == Run(result, separated, words[i..])
    {
      assert words[i..][1..] == words[i + 1..];
      var word := words[i];
      if separated {
        result := AddToCommand(result, word);
      } else if word == "--" {
        separated := true;
      } else if result.command.Some? {
        result := AddToCommand(result, word);
      } else {
        var error := None;
        match Classify(word) {
          case Page(topic) => return Quit(topic);
          case Sets(flag) => result := AddFlag(result, flag);
          case Takes(opt) =>
            i := i + 1;
            if i == |words| {
              return Fail(MissingValue(opt));
            }
            result, error := Set(result, opt, words[i]);
          case Gives(opt, value) => result, error := Set(result, opt, value);
          case Unknown => return Fail(UnknownOption(word));
          case Positional => result := AddPositional(result, word);
          case Cluster =>
            if result.duration.Some? || DurationText.IsDigit(word[1]) {
              result := AddPositional(result, word);
            } else {
              result, i, error := WalkCluster(word, words, i, result);
            }
        }
        if error.Some? {
          return Fail(error.value);
        }
      }
      i := i + 1;
    }
    parsed := Finish(Done(result));
  }

  method Set(r: Args, opt: Opt, text: string) returns (result: Args, error: Option<Error>)
    ensures SetValue(r, opt, text) == match error case Some(e) => Err(e) case None => Ok(result)
  {
    match SetValue(r, opt, text) {
      case Ok(r1) => return r1, None;
      case Err(e) => return r, Some(e);
    }
  }

  // ----- forwarding

  /** The words without their first separator. */
  function WithoutFirstSeparator(words: seq<string>): seq<string> {
    if words == [] then [] else if words[0] == "--" then words[1..] else [words[0]] + WithoutFirstSeparator(words[1..])
  }

  function Forwarded(separated: bool, words: seq<string>): seq<string> {
    if separated then words else WithoutFirstSeparator(words)
  }

  /** Once COMMAND is known every word goes to it, in order and never read as an
      option; only the first separator is dropped, if none was seen before. */
  lemma {:induction false} RestIsForwarded(r: Args, separated: bool, words: seq<string>)
    requires r.command.Some?
    ensures Run(r, separated, words) == Done(r.(args := r.args + Forwarded(separated, words)))
    decreases |words|
  {
    hide Classify, SetValue, Letters;
    if words == [] {
      assert r.args + [] == r.args;
    } else {
      var drop := !separated && words[0] == "--";
      var r1 := if drop then r else AddToCommand(r, words[0]);
      RestIsForwarded(r1, separated || drop, words[1..]);
      assert !drop ==> r.args + Forwarded(separated, words) == r1.args + Forwarded(separated, words[1..]);
    }
  }

  /** What a finished parse owes to the words: COMMAND is the word at k, and its
      arguments are the words after it, less the first separator unless there was
      one before. */
  ghost predicate Owes(p: Parsed, before: bool, words: seq<string>, k: nat, separated: bool) {
    && p.Done? && k < |words| && p.args.command == Some(words[k])
    && p.args.args == Forwarded(separated, words[k + 1..])
    && (separated ==> before || "--" in words[..k])
  }

  lemma OwesMore(p: Parsed, before: bool, words: seq<string>, n: nat, k: nat, separated: bool)
    requires n <= |words| && Owes(p, before, words[n..], k, separated)
    ensures Owes(p, before, words, n + k, separated)
  {
    assert words[n..][k + 1..] == words[n + k + 1..];
    assert words[n..][..k] == words[n..n + k];
    assert words[..n + k] == words[..n] + words[n..n + k];
  }

  lemma SetValueKeepsCommand(r: Args, opt: Opt, text: string)
    ensures SetValue(r, opt, text).Ok? ==>
              && SetValue(r, opt, text).value.command == r.command && SetValue(r, opt, text).value.args == r.args
              && SetValue(r, opt, text).value.duration == r.duration
  {
  }

  lemma {:induction false} LettersKeepCommand(r: Args, letters: string, next: Option<string>)
    ensures var w := Letters(r, letters, next);
            w.Walked? ==> w.r.command == r.command && w.r.args == r.args && w.used <= 1 && (w.used == 1 ==> next.Some?)
    decreases |letters|
  {
    if letters != "" {
      match (FlagLetter(letters[0]), ValueLetter(letters[0])) {
        case (Some(f), _) => LettersKeepCommand(AddFlag(r, f), letters[1..], next);
        case (None, Some(opt)) =>
          SetValueKeepsCommand(r, opt, letters[1..]);
          if next.Some? {
            SetValueKeepsCommand(r, opt, next.value);
          }
        case (None, None) =>
      }
    }
  }

  /** One turn before COMMAND: it finishes, or it takes one word or two and goes
      on, with COMMAND unknown or with COMMAND the first of them. */
  lemma OneTurn(r: Args, separated: bool, words: seq<string>) returns (r1: Args, sep1: bool, n: nat)
    requires words != [] && r.command.None? && Run(r, separated, words).Done?
    ensures 1 <= n <= |words| && Run(r, separated, words) == Run(r1, sep1, words[n..]) && r1.args == r.args
    ensures sep1 ==> separated || (words[0] == "--" && r1.command.None?)
    ensures r1.command.None? || (n == 1 && r1.command == Some(words[0]))
  {
    var word, rest := words[0], words[1..];
    r1, sep1, n := r, separated, 1;
    if separated {
      r1 := AddToCommand(r, word);
    } else if word == "--" {
      sep1 := true;
    } else {
      match Classify(word) {
        case Page(_) =>
        case Unknown =>
        case Sets(flag) => r1 := AddFlag(r, flag);
        case Takes(opt) =>
          SetValueKeepsCommand(r, opt, rest[0]);
          r1, n := SetValue(r, opt, rest[0]).value, 2;
          assert rest[1..] == words[2..];
        case Gives(opt, value) =>
          SetValueKeepsCommand(r, opt, value);
          r1 := SetValue(r, opt, value).value;
        case Positional => r1 := AddPositional(r, word);
        case Cluster =>
          if r.duration.Some? || DurationText.IsDigit(word[1]) {
            r1 := AddPositional(r, word);
          } else {
            LettersKeepCommand(r, word[1..], First(rest));
            var w := Letters(r, word[1..], First(rest));
            r1, n := w.r, 1 + w.used;
            assert w.used == 1 ==> rest[1..] == words[2..];
          }
      }
    }
  }

  /** From any state before COMMAND, a parse that finds one conserves its words. */
  lemma {:induction false} WordsAreConserved(r: Args, before: bool, words: seq<string>) returns (k: nat, separated: bool)
    requires r.command.None? && r.args == []
    requires Run(r, before, words).Done? && Run(r, before, words).args.command.Some?
    ensures Owes(Run(r, before, words), before, words, k, separated)
    decreases |words|
  {
    var r1, sep1, n := OneTurn(r, before, words);
    if r1.command.Some? {
      RestIsForwarded(r1, sep1, words[1..]);
      assert r1.args + Forwarded(sep1, words[1..]) == Forwarded(sep1, words[1..]);
      k, separated := 0, sep1;
    } else {
      k, separated := WordsAreConserved(r1, sep1, words[n..]);
      OwesMore(Run(r, before, words), sep1, words, n, k, separated);
      k := n + k;
      assert words[..k][0] == words[0];
    }
  }

  /** The whole command line: nothing of COMMAND and what follows it is lost,
      reordered or read as an option. */
  lemma CommandIsForwarded(words: seq<string>) returns (k: nat, separated: bool)
    requires Parse(words).Done? && Parse(words).args.command.Some?
    ensures Owes(Parse(words), false, words, k, separated)
  {
    k, separated := WordsAreConserved(BLANK, false, words);
  }

  // ----- clusters

  predicate Known(letters: string)
    decreases |letters|
  {
    letters == "" || ValueLetter(letters[0]).Some? || (FlagLetter(letters[0]).Some? && Known(letters[1..]))
  }

  /** The same options one word each. */
  function Expand(letters: string): seq<string>
    decreases |letters|
  {
    if letters == "" then []
    else
      var option := ['-', letters[0]];
      if FlagLetter(letters[0]).Some? then [option] + Expand(letters[1..])
      else if |letters| == 1 then [option] else [option, letters[1..]]
  }

  /** What follows a cluster, once it has been read. */
  function AfterCluster(w: Walk, rest: seq<string>): Parsed {
    match w
    case Walked(r, used) => Run(r, false, if used == 0 || rest == [] then rest else rest[1..])
    case Stopped(e) => Fail(e)
  }

  lemma FlagWord(c: char)
    requires FlagLetter(c).Some?
    ensures Classify(['-', c]) == Sets(FlagLetter(c).value) && ValueLetter(c).None?
  {
  }

  lemma ValueWord(c: char)
    requires ValueLetter(c).Some?
    ensures Classify(['-', c]) == if c == 'r' then Cluster else Takes(ValueLetter(c).value)
    ensures FlagLetter(c).None?
  {
  }

  /** Reading the letters is reading the words they stand for. */
  lemma {:induction false} LettersAreWords(r: Args, letters: string, rest: seq<string>)
    requires r.duration.None? && r.command.None? && Known(letters)
    ensures Run(r, false, Expand(letters) + rest) == AfterCluster(Letters(r, letters, First(rest)), rest)
    decreases |letters|
  {
    if letters == "" {
      assert Expand(letters) + rest == rest;
    } else {
      var c, words := letters[0], Expand(letters) + rest;
      if FlagLetter(c).Some? {
        FlagWord(c);
        assert words[1..] == Expand(letters[1..]) + rest;
        LettersAreWords(AddFlag(r, FlagLetter(c).value), letters[1..], rest);
      } else {
        ValueLetterIsWords(r, letters, rest);
      }
    }
  }

  lemma ValueLetterIsWords(r: Args, letters: string, rest: seq<string>)
    requires r.duration.None? && r.command.None? && letters != "" && ValueLetter(letters[0]).Some?
    ensures Run(r, false, Expand(letters) + rest) == AfterCluster(Letters(r, letters, First(rest)), rest)
  {
    var c, words := letters[0], Expand(letters) + rest;
    ValueWord(c);
    assert words[0] == ['-', c] && words[0] != "--";
    if |letters| == 1 {
      assert words[1..] == rest;
    } else {
      assert words[1..] == [letters[1..]] + rest && words[1..][1..] == rest;
    }
  }

  /** Before DURATION, a cluster of known letters does what its options would do one
      by one, whether its last value is embedded or the next word, errors included. */
  lemma ClusterIsItsExpansion(r: Args, letters: string, rest: seq<string>)
    requires r.duration.None? && r.command.None? && letters != "" && Known(letters)
    ensures Run(r, false, ["-" + letters] + rest) == Run(r, false, Expand(letters) + rest)
  {
    if |letters| == 1 {
      assert letters == [letters[0]] && ['-', letters[0]] == "-" + letters;
      assert letters[1..] == "" && [['-', letters[0]]] + [] == [['-', letters[0]]];
      assert Expand(letters) == [['-', letters[0]]];
    } else {
      var words := ["-" + letters] + rest;
      assert words[0][1..] == letters && words[1..] == rest;
      assert Classify(words[0]) == Cluster && !DurationText.IsDigit(letters[0]);
      hide Classify, Letters, Known;
      LettersAreWords(r, letters, rest);
    }
  }

  /** After DURATION it does not hold: there the same word is COMMAND. */
  lemma ClusterAfterDurationIsCommand(r: Args, letters: string, rest: seq<string>)
    requires r.duration.Some? && r.command.None? && Known(letters) && (|letters| > 1 || letters == "r")
    ensures var word := "-" + letters;
            Run(r, false, [word] + rest) ==
              Done(r.(command := Some(word), args := r.args + WithoutFirstSeparator(rest)))
  {
    var words := ["-" + letters] + rest;
    assert words[1..] == rest;
    assert letters[0] != '-';
    assert Classify(words[0]) == Cluster;
    RestIsForwarded(r.(command := Some(words[0])), false, rest);
  }
}
