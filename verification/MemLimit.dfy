/** Memory limits such as "512M": digits and a binary unit, in 64 bits. */
module MemLimit {
  import opened Wrappers
  import opened TimeMath
  import opened DurationText

  datatype LimitError = EmptyText | NoDigits | BadValue | BadUnit | TooLarge

  predicate IsLetter(c: char) { 'a' <= c <= 'z' || 'A' <= c <= 'Z' }

  function Multiplier(suffix: string): Option<nat> {
    var u := Lower(suffix);
    if u == "" || u == "b" then Some(1)
    else if u == "k" || u == "kb" then Some(0x400)
    else if u == "m" || u == "mb" then Some(0x10_0000)
    else if u == "g" || u == "gb" then Some(0x4000_0000)
    else if u == "t" || u == "tb" then Some(0x100_0000_0000)
    else None
  }

  /** Where the trailing letters start. */
  function LettersStart(s: string): (r: nat)
    ensures r <= |s|
    ensures forall i :: r <= i < |s| ==> IsLetter(s[i])
    ensures r > 0 ==> !IsLetter(s[r - 1])
  {
    if s == "" || !IsLetter(s[|s| - 1]) then |s| else LettersStart(s[..|s| - 1])
  }

  /** The search for the suffix, from the right. */
  method FindSuffix(s: string) returns (at: nat)
    ensures at == LettersStart(s)
  {
    at := |s|;
    while at > 0 && IsLetter(s[at - 1])
      invariant 0 <= at <= |s| && LettersStart(s) == LettersStart(s[..at])
    {
      assert s[..at][..at - 1] == s[..at - 1];
      at := at - 1;
    }
  }

  function ParseU64(s: string): Option<nat> {
    if AllDigits(s) && Value(s) <= U64_MAX then Some(Value(s)) else None
  }

  lemma {:induction false} PrefixIsNoLarger(s: string, i: nat)
    requires AllDigits(s) && i <= |s|
    ensures Value(s[..i]) <= Value(s)
    decreases |s|
  {
    if i < |s| {
      assert s[..|s| - 1][..i] == s[..i];
      PrefixIsNoLarger(s[..|s| - 1], i);
    } else {
      assert s[..i] == s;
    }
  }

  /** The digit loop, checked against overflow at every digit: it never gives up on
      a number that fits. */
  method ReadU64(s: string) returns (r: Option<nat>)
    ensures r == ParseU64(s)
  {
    var n: nat := 0;
    for i := 0 to |s|
      invariant AllDigits(s[..i]) && n == Value(s[..i]) <= U64_MAX
    {
      if !IsDigit(s[i]) {
        return None;
      }
      assert s[..i + 1][..i] == s[..i];
      if n * 10 > U64_MAX || n * 10 + (s[i] as nat - '0' as nat) > U64_MAX {
        if AllDigits(s) {
          PrefixIsNoLarger(s, i + 1);
        }
        return None;
      }
      n := n * 10 + (s[i] as nat - '0' as nat);
    }
    assert s[..|s|] == s;
    r := Some(n);
  }

  function ParseMemLimit(text: string): Result<nat, LimitError> {
    var s := Trim(text);
    if s == "" then Err(EmptyText)
    else
      var at := LettersStart(s);
      if at == 0 then Err(NoDigits)
      else
        match ParseU64(s[..at])
        case None => Err(BadValue)
        case Some(n) =>
          match Multiplier(s[at..])
          case None => Err(BadUnit)
          case Some(m) => if n * m > U64_MAX then Err(TooLarge) else Ok(n * m)
  }

  /** White space, digits, a unit, white space, meaning n bytes. */
  ghost predicate Means(before: string, digits: string, suffix: string, after: string, n: nat) {
    && AllWhite(before) && AllWhite(after) && digits != "" && AllDigits(digits)
    && Multiplier(suffix).Some? && n == Value(digits) * Multiplier(suffix).value
  }

  lemma {:induction false} TrimEndParts(s: string) returns (after: string)
    ensures AllWhite(after) && s == TrimEnd(s) + after
    decreases |s|
  {
    if s != "" && IsWhite(s[|s| - 1]) {
      after := TrimEndParts(s[..|s| - 1]);
      after := after + [s[|s| - 1]];
    } else {
      after := "";
    }
  }

  lemma {:induction false} TrimParts(text: string) returns (before: string, after: string)
    ensures AllWhite(before) && AllWhite(after) && text == before + Trim(text) + after
    decreases |text|
  {
    if text != "" && IsWhite(text[0]) {
      before, after := TrimParts(text[1..]);
      assert text == [text[0]] + (before + Trim(text[1..]) + after);
      before := [text[0]] + before;
    } else {
      before := "";
      after := TrimEndParts(text);
      assert text == "" + TrimEnd(text) + after;
    }
  }

  lemma UnitIsLetters(suffix: string)
    requires Multiplier(suffix).Some?
    ensures forall i :: 0 <= i < |suffix| ==> IsLetter(suffix[i])
    ensures Multiplier(suffix).value >= 1
  {
    var u := Lower(suffix);
    assert forall i :: 0 <= i < |u| ==> 'a' <= u[i] <= 'z';
    forall i | 0 <= i < |suffix| ensures IsLetter(suffix[i]) {
      assert 'a' <= u[i] <= 'z';
    }
  }

  lemma LettersFound(digits: string, suffix: string)
    requires digits != "" && AllDigits(digits) && forall i :: 0 <= i < |suffix| ==> IsLetter(suffix[i])
    ensures LettersStart(digits + suffix) == |digits|
  {
    var s := digits + suffix;
    assert s[|digits| - 1] == digits[|digits| - 1];
    assert forall i :: |digits| <= i < |s| ==> s[i] == suffix[i - |digits|];
  }

  lemma LettersAreNotWhite(c: char)
    ensures IsLetter(c) || IsDigit(c) ==> !IsWhite(c)
  {
  }

  lemma MeaningIsRead(before: string, digits: string, suffix: string, after: string, n: nat)
    requires Means(before, digits, suffix, after, n)
    ensures ParseMemLimit(before + digits + suffix + after) == if n <= U64_MAX then Ok(n) else
              if Value(digits) > U64_MAX then Err(BadValue) else Err(TooLarge)
  {
    var s := digits + suffix;
    UnitIsLetters(suffix);
    LettersFound(digits, suffix);
    assert s[0] == digits[0] && s[|s| - 1] == if suffix == "" then digits[|digits| - 1] else suffix[|suffix| - 1];
    LettersAreNotWhite(s[0]);
    LettersAreNotWhite(s[|s| - 1]);
    hide IsWhite, Value, Multiplier, LettersStart, AllWhite, Trim;
    assert before + digits + suffix + after == before + s + after;
    TrimDrops(before, s, after);
    assert s[..|digits|] == digits && s[|digits|..] == suffix;
    MulLe(1, Multiplier(suffix).value, Value(digits));
  }

  /** A limit is accepted, as n bytes, exactly when it is white space, digits, a unit
      and white space that together mean n, and n fits in 64 bits. */
  lemma AcceptedIffItMeans(text: string, n: nat)
    ensures ParseMemLimit(text) == Ok(n) <==>
              n <= U64_MAX
              && exists before, digits, suffix, after ::
                   text == before + digits + suffix + after && Means(before, digits, suffix, after, n)
  {
    if ParseMemLimit(text) == Ok(n) {
      var before, after := TrimParts(text);
      var s := Trim(text);
      var at := LettersStart(s);
      var digits, suffix := s[..at], s[at..];
      assert s == digits + suffix;
      hide Trim, LettersStart, IsWhite, Value, Multiplier, AllWhite;
      assert text == before + digits + suffix + after;
      assert Means(before, digits, suffix, after, n);
    }
    forall before, digits, suffix, after
      | text == before + digits + suffix + after && Means(before, digits, suffix, after, n) && n <= U64_MAX
      ensures ParseMemLimit(text) == Ok(n)
    {
      MeaningIsRead(before, digits, suffix, after, n);
    }
  }
}
