/**
 * The main menu of the terminal wizard (index.cjs): the answer to the prompt
 * is trimmed and must be one of the digits 1 to 5; anything else prints
 * "Invalid option." and shows the menu again.
 */
module Menu {
  import opened Results

  datatype Action = GenerateConfig | CheckNetwork | InstallWatchdog | LaunchWebUi | Exit

  /** The characters `String.prototype.trim` removes: white space and line terminators. */
  predicate IsSpace(c: char)
  {
    || c == '\t' || c == '\n' || c == '\U{B}' || c == '\U{C}' || c == '\r' || c == ' '
    || c == '\U{A0}' || c == '\U{1680}' || ('\U{2000}' <= c <= '\U{200A}')
    || c == '\U{2028}' || c == '\U{2029}' || c == '\U{202F}' || c == '\U{205F}'
    || c == '\U{3000}' || c == '\U{FEFF}'
  }

  predicate AllSpace(s: string)
  {
    forall i :: 0 <= i < |s| ==> IsSpace(s[i])
  }

  /** `s` without its leading white space. */
  function TrimStart(s: string): (r: string)
    ensures |r| <= |s|
    decreases |s|
  {
    if s != [] && IsSpace(s[0]) then TrimStart(s[1..]) else s
  }

  /** `s` without its trailing white space. */
  function TrimEnd(s: string): (r: string)
    ensures |r| <= |s|
    decreases |s|
  {
    if s != [] && IsSpace(s[|s| - 1]) then TrimEnd(s[..|s| - 1]) else s
  }

  /** TrimStart removes a white-space prefix, and exactly as much as there is. */
  lemma {:induction false} TrimStartRemovesLeadingSpace(s: string)
    ensures var r := TrimStart(s);
      && s == s[..|s| - |r|] + r
      && AllSpace(s[..|s| - |r|])
      && (r == [] || !IsSpace(r[0]))
    decreases |s|
  {
    if s != [] && IsSpace(s[0]) {
      TrimStartRemovesLeadingSpace(s[1..]);
      var r := TrimStart(s);
      var n := |s| - |r|;
      assert s[1..][..n - 1] == s[1..n];
      assert s[..n] == [s[0]] + s[1..n];
      assert s == [s[0]] + s[1..];
    }
  }

  /** TrimEnd removes a white-space suffix, and exactly as much as there is. */
  lemma {:induction false} TrimEndRemovesTrailingSpace(s: string)
    ensures var r := TrimEnd(s);
      && s == r + s[|r|..]
      && AllSpace(s[|r|..])
      && (r == [] || !IsSpace(r[|r| - 1]))
    decreases |s|
  {
    if s != [] && IsSpace(s[|s| - 1]) {
      var p := s[..|s| - 1];
      TrimEndRemovesTrailingSpace(p);
      var r := TrimEnd(s);
      assert p[|r|..] + [s[|s| - 1]] == s[|r|..];
      assert s == p + [s[|s| - 1]];
    }
  }

  /** `s.trim()` */
  function Trim(s: string): string
  {
    TrimEnd(TrimStart(s))
  }

  /** The action an answer to the menu prompt selects, if any. */
  function Chosen(answer: string): Option<Action>
  {
    Select(Trim(answer))
  }

  /** The `switch (choice.trim())` of `main`; None is the `default:` branch. */
  function Select(choice: string): Option<Action>
  {
    if choice == "1" then Some(GenerateConfig)
    else if choice == "2" then Some(CheckNetwork)
    else if choice == "3" then Some(InstallWatchdog)
    else if choice == "4" then Some(LaunchWebUi)
    else if choice == "5" then Some(Exit)
    else None
  }

  /** TrimStart skips any white-space prefix up to the first other character. */
  lemma {:induction false} TrimStartSkipsSpace(space: string, rest: string)
    requires AllSpace(space) && (rest == [] || !IsSpace(rest[0]))
    ensures TrimStart(space + rest) == rest
    decreases |space|
  {
    if space != [] {
      assert (space + rest)[1..] == space[1..] + rest;
      TrimStartSkipsSpace(space[1..], rest);
    }
  }

  /** TrimEnd drops any white-space suffix back to the last other character. */
  lemma {:induction false} TrimEndSkipsSpace(rest: string, space: string)
    requires AllSpace(space) && (rest == [] || !IsSpace(rest[|rest| - 1]))
    ensures TrimEnd(rest + space) == rest
    decreases |space|
  {
    if space != [] {
      var shorter := space[..|space| - 1];
      assert (rest + space)[..|rest + space| - 1] == rest + shorter;
      TrimEndSkipsSpace(rest, shorter);
    } else {
      assert rest + space == rest;
    }
  }

  /** A menu digit surrounded by any white space selects its action. */
  lemma PaddedChoiceTrims(before: string, c: char, after: string)
    requires AllSpace(before) && AllSpace(after) && !IsSpace(c)
    ensures Trim(before + [c] + after) == [c]
  {
    assert before + [c] + after == before + ([c] + after);
    TrimStartSkipsSpace(before, [c] + after);
    TrimEndSkipsSpace([c], after);
  }

  /** Conversely, an answer that trims to one character is that character padded with white space. */
  lemma TrimmedChoiceIsPadded(s: string, c: char) returns (k: nat)
    requires Trim(s) == [c]
    ensures k < |s| && s[k] == c && !IsSpace(c)
    ensures AllSpace(s[..k]) && AllSpace(s[k + 1..])
  {
    var t := TrimStart(s);
    TrimStartRemovesLeadingSpace(s);
    TrimEndRemovesTrailingSpace(t);
    k := |s| - |t|;
    assert t == [c] + t[1..];
    assert s[k..] == t;
    assert s[k + 1..] == t[1..];
  }

  /**
   * `main`: reads answers until one selects an action; every answer before it
   * was invalid ("Invalid option." and the menu again). With no valid answer
   * the model returns None after consuming them all.
   */
  method Menu(answers: seq<string>) returns (action: Option<Action>, used: nat)
    ensures used <= |answers|
    ensures action.Some? ==> 0 < used && Chosen(answers[used - 1]) == action
    ensures action.None? ==> used == |answers|
    ensures forall k :: 0 <= k < used - 1 ==> Chosen(answers[k]).None?
    ensures action.None? ==> forall k :: 0 <= k < |answers| ==> Chosen(answers[k]).None?
  {
    var i := 0;
    while i < |answers|
      invariant 0 <= i <= |answers|
      invariant forall k :: 0 <= k < i ==> Chosen(answers[k]).None?
    {
      var choice := Chosen(answers[i]);
      if choice.Some? {
        return choice, i + 1;
      }
      i := i + 1;
    }
    return None, |answers|;
  }
}
