/**
 * String helpers of the app: `capitalize` and the cleaner that turns an
 * authentication error into the text shown to the user.
 */
module Helpers {
  import opened Wrappers
  import opened JsText

  // ---------------------------------------------------------------------------
  // capitalize
  // ---------------------------------------------------------------------------

  /**
   * `capitalize`: the first character upper-cased, the rest kept as it is.
   * `upper` is the platform's upper-casing of one character; it may return more
   * than one character (as it does for 'ß').
   */
  function Capitalize(s: string, upper: char -> string): (r: string)
    ensures s == [] ==> r == []
    ensures s != [] ==> |r| == |upper(s[0])| + |s| - 1
  {
    if s == [] then [] else upper(s[0]) + s[1..]
  }

  /** Upper-casing of an ASCII character: 'a'..'z' become 'A'..'Z', everything else stays. */
  function AsciiUpper(c: char): (u: char)
    requires c < 128 as char
    ensures u < 128 as char
  {
    if 'a' <= c <= 'z' then (c as int - 32) as char else c
  }

  predicate IsAscii(s: string) {
    forall i :: 0 <= i < |s| ==> s[i] < 128 as char
  }

  /** `upper` agrees with JavaScript's `toUpperCase` on every ASCII character. */
  predicate UpperIsAsciiExact(upper: char -> string) {
    forall c: char :: c < 128 as char ==> upper(c) == [AsciiUpper(c)]
  }

  /** Everything after the first character comes through verbatim. */
  lemma CapitalizeKeepsRest(s: string, upper: char -> string)
    requires s != []
    ensures Capitalize(s, upper)[|upper(s[0])|..] == s[1..]
    ensures Capitalize(s, upper)[..|upper(s[0])|] == upper(s[0])
  {
  }

  /** On ASCII text `capitalize` keeps the length, and changes at most the first character. */
  lemma CapitalizeAsciiLength(s: string, upper: char -> string)
    requires IsAscii(s) && UpperIsAsciiExact(upper)
    ensures |Capitalize(s, upper)| == |s|
    ensures forall i :: 1 <= i < |s| ==> Capitalize(s, upper)[i] == s[i]
  {
    if s != [] {
      assert upper(s[0]) == [AsciiUpper(s[0])];
    }
  }

  /** On ASCII text capitalising twice is capitalising once. */
  lemma {:induction false} CapitalizeAsciiIdempotent(s: string, upper: char -> string)
    requires IsAscii(s) && UpperIsAsciiExact(upper)
    ensures Capitalize(Capitalize(s, upper), upper) == Capitalize(s, upper)
  {
    if s != [] {
      var c := s[0];
      assert upper(c) == [AsciiUpper(c)];
      var r := Capitalize(s, upper);
      assert r == [AsciiUpper(c)] + s[1..];
      assert r[0] == AsciiUpper(c);
      assert upper(r[0]) == [AsciiUpper(AsciiUpper(c))];
      assert AsciiUpper(AsciiUpper(c)) == AsciiUpper(c);
      assert r[1..] == s[1..];
    }
  }

  // ---------------------------------------------------------------------------
  // getFirebaseErrorMessage: message.replace(/\[.*\]\s*/, '')
  // ---------------------------------------------------------------------------

  const UnknownErrorMessage := "An unknown error occurred"

  /** No line terminator in s[lo..hi]: `.*` can run over this stretch. */
  predicate OnOneLine(s: string, lo: nat, hi: nat)
    requires lo <= hi <= |s|
  {
    forall t :: lo <= t < hi ==> !IsLineTerminator(s[t])
  }

  /** The '[' at index i has a ']' after it on the same line, so `\[.*\]` can start at i. */
  predicate CodeStartsAt(s: string, i: nat) {
    i < |s| && s[i] == '[' &&
    exists k :: i < k < |s| && s[k] == ']' && OnOneLine(s, i + 1, k)
  }

  /** First index at or after j that holds a line terminator, or |s| when there is none. */
  function LineEnd(s: string, j: nat): (e: nat)
    requires j <= |s|
    ensures j <= e <= |s| && OnOneLine(s, j, e)
    ensures e < |s| ==> IsLineTerminator(s[e])
    decreases |s| - j
  {
    if j == |s| || IsLineTerminator(s[j]) then j else LineEnd(s, j + 1)
  }

  /** Index of the last ']' in s[lo..hi], if there is one. */
  function LastClose(s: string, lo: nat, hi: nat): (k: Option<nat>)
    requires lo <= hi <= |s|
    ensures k.Some? ==> lo <= k.value < hi && s[k.value] == ']'
    ensures k.Some? ==> forall m :: k.value < m < hi ==> s[m] != ']'
    ensures k.None? ==> forall m :: lo <= m < hi ==> s[m] != ']'
    decreases hi - lo
  {
    if lo == hi then None
    else if s[hi - 1] == ']' then Some(hi - 1)
    else LastClose(s, lo, hi - 1)
  }

  /** Where greedy `.*\]` stops when the match starts at index i: the last ']' of the rest of that line. */
  function CloseFor(s: string, i: nat): (k: Option<nat>)
    requires i < |s|
    ensures k.Some? <==> exists m :: i < m < |s| && s[m] == ']' && OnOneLine(s, i + 1, m)
    ensures k.Some? ==> i < k.value < |s| && s[k.value] == ']' && OnOneLine(s, i + 1, k.value)
    ensures k.Some? ==> forall m :: k.value < m < |s| && OnOneLine(s, i + 1, m) ==> s[m] != ']'
  {
    var e := LineEnd(s, i + 1);
    LineEndBounds(s, i + 1, e);
    LastClose(s, i + 1, e)
  }

  /** A stretch that starts at j and stays on one line does not reach past LineEnd(s, j). */
  lemma LineEndBounds(s: string, j: nat, e: nat)
    requires j <= |s| && e == LineEnd(s, j)
    ensures forall m :: j <= m <= |s| && OnOneLine(s, j, m) ==> m <= e
  {
  }

  /** The first index at or after `from` where `\[.*\]` can start. */
  function FirstCodeStart(s: string, from: nat): (i: Option<nat>)
    requires from <= |s|
    ensures i.Some? ==> from <= i.value < |s| && CodeStartsAt(s, i.value)
    ensures i.Some? ==> forall m :: from <= m < i.value ==> !CodeStartsAt(s, m)
    ensures i.None? ==> forall m :: from <= m < |s| ==> !CodeStartsAt(s, m)
    decreases |s| - from
  {
    if from == |s| then None
    else if s[from] == '[' && CloseFor(s, from).Some? then Some(from)
    else FirstCodeStart(s, from + 1)
  }

  /** Greedy `\s*` from index j: the end of the run of white space starting there. */
  function SkipSpaces(s: string, j: nat): (e: nat)
    requires j <= |s|
    ensures j <= e <= |s| && IsBlank(s[j..e])
    ensures e < |s| ==> !IsJsSpace(s[e])
    decreases |s| - j
  {
    if j < |s| && IsJsSpace(s[j]) then
      var e := SkipSpaces(s, j + 1);
      assert s[j..e] == [s[j]] + s[j + 1..e];
      e
    else j
  }

  /**
   * The span [start, end) that the pattern `\[.*\]\s*` matches in s, if any: the leftmost
   * '[' that has a ']' later on its line, up to the LAST such ']', then all the
   * white space that follows.
   */
  function BracketCode(s: string): (span: Option<(nat, nat)>)
    ensures span.None? <==> forall m :: 0 <= m < |s| ==> !CodeStartsAt(s, m)
    ensures span.Some? ==> span.value.0 + 2 <= span.value.1 <= |s|
  {
    match FirstCodeStart(s, 0)
    case None => None
    case Some(i) => Some((i, SkipSpaces(s, CloseFor(s, i).value + 1)))
  }

  /** The message with its bracketed code removed, once. */
  function StripBracketCode(s: string): (r: string)
    ensures |r| <= |s|
  {
    match BracketCode(s)
    case None => s
    case Some((i, e)) => s[..i] + s[e..]
  }

  /** `getFirebaseErrorMessage`: the cleaned message, or a fixed text when there is no message. */
  function FirebaseErrorMessage(message: Option<string>): (r: string)
    ensures message.None? || message == Some("") ==> r == UnknownErrorMessage
    ensures message.Some? && message.value != "" ==> r == StripBracketCode(message.value) && |r| <= |message.value|
  {
    if message.Some? && message.value != "" then StripBracketCode(message.value)
    else UnknownErrorMessage
  }

  /** A message without a '[' that is closed on its own line comes back unchanged. */
  lemma StripWithoutCodeIsIdentity(s: string)
    requires forall m :: 0 <= m < |s| ==> !CodeStartsAt(s, m)
    ensures StripBracketCode(s) == s
  {
  }

  /**
   * When the message has a code, exactly one stretch is removed: from the
   * leftmost '[' that is closed on its line (index i), through the last ']' of
   * that line (index k), through the white space after it (up to e). Everything
   * before and after is kept.
   */
  lemma StripRemovesLeftmostCode(s: string, i: nat) returns (k: nat, e: nat)
    requires CodeStartsAt(s, i)
    requires forall m :: 0 <= m < i ==> !CodeStartsAt(s, m)
    ensures i < k < e <= |s| && s[k] == ']' && OnOneLine(s, i + 1, k)
    ensures forall m :: k < m < |s| && OnOneLine(s, i + 1, m) ==> s[m] != ']'
    ensures IsBlank(s[k + 1..e]) && (e < |s| ==> !IsJsSpace(s[e]))
    ensures StripBracketCode(s) == s[..i] + s[e..]
  {
    var j := FirstCodeStart(s, 0);
    assert j == Some(i);
    k := CloseFor(s, i).value;
    e := SkipSpaces(s, k + 1);
    assert BracketCode(s) == Some((i, e));
  }

  /**
   * The shape the source's comment expects, "[code] text": the code, its brackets
   * and the space after them go, and the text remains.
   */
  lemma {:induction false} StripCodePrefix(code: string, text: string)
    requires forall t :: 0 <= t < |code| ==> code[t] != ']' && !IsLineTerminator(code[t])
    requires forall t :: 0 <= t < |text| ==> text[t] != ']'
    requires text == [] || !IsJsSpace(text[0])
    ensures StripBracketCode("[" + code + "] " + text) == text
  {
    var s := "[" + code + "] " + text;
    var c := |code| + 1;
    PrefixLayout(code, text, s);
    var k, e := StripRemovesLeftmostCode(s, 0);
    assert k == c;
    SingleSpaceRun(s, c + 1, e);
    assert s[e..] == text;
  }

  /** Where the brackets, the space and the text sit in "[code] text". */
  lemma PrefixLayout(code: string, text: string, s: string)
    requires forall t :: 0 <= t < |code| ==> code[t] != ']' && !IsLineTerminator(code[t])
    requires forall t :: 0 <= t < |text| ==> text[t] != ']'
    requires s == "[" + code + "] " + text
    ensures CodeStartsAt(s, 0)
    ensures forall m :: 0 < m < |s| && s[m] == ']' ==> m == |code| + 1
    ensures s[|code| + 2] == ' ' && s[|code| + 3..] == text
  {
    var c := |code| + 1;
    assert forall t :: 1 <= t < c ==> s[t] == code[t - 1];
    assert forall t :: c + 2 <= t < |s| ==> s[t] == text[t - c - 2];
    assert s[c] == ']' && OnOneLine(s, 1, c);
  }

  /** A run of white space that starts at j, where s[j + 1] is not white space, ends at j + 1. */
  lemma SingleSpaceRun(s: string, j: nat, e: nat)
    requires j < e <= |s| && IsBlank(s[j..e]) && (e < |s| ==> !IsJsSpace(s[e]))
    requires j + 1 == |s| || !IsJsSpace(s[j + 1])
    ensures e == j + 1
  {
  }

  /** The example from the source's comment. */
  lemma StripDocumentedExample(s: string)
    requires s == "[auth/user-not-found] User not found."
    ensures StripBracketCode(s) == "User not found."
  {
    var code, text := "auth/user-not-found", "User not found.";
    assert s == "[" + code + "] " + text;
    StripCodePrefix(code, text);
  }

  /**
   * A code that ends the first line goes together with the line break after
   * it; the following lines are kept as they are, brackets included.
   */
  lemma {:induction false} StripFirstLineCode(code: string, text: string)
    requires forall t :: 0 <= t < |code| ==> code[t] != ']' && !IsLineTerminator(code[t])
    requires text == [] || !IsJsSpace(text[0])
    ensures StripBracketCode("[" + code + "]\n" + text) == text
  {
    var s := "[" + code + "]\n" + text;
    var c := |code| + 1;
    FirstLineLayout(code, text, s);
    var k, e := StripRemovesLeftmostCode(s, 0);
    assert k == c;
    SingleSpaceRun(s, c + 1, e);
    assert s[e..] == text;
  }

  /** Where the brackets, the line break and the text sit in "[code]\ntext". */
  lemma FirstLineLayout(code: string, text: string, s: string)
    requires forall t :: 0 <= t < |code| ==> code[t] != ']' && !IsLineTerminator(code[t])
    requires s == "[" + code + "]\n" + text
    ensures CodeStartsAt(s, 0) && s[|code| + 1] == ']' && OnOneLine(s, 1, |code| + 1)
    ensures forall m :: 0 < m < |code| + 1 ==> s[m] != ']'
    ensures s[|code| + 2] == '\n' && IsLineTerminator(s[|code| + 2]) && IsJsSpace(s[|code| + 2])
    ensures forall m :: |code| + 2 < m <= |s| ==> !OnOneLine(s, 1, m)
    ensures s[|code| + 3..] == text
  {
    var c := |code| + 1;
    assert forall t :: 1 <= t < c ==> s[t] == code[t - 1];
    assert s[c] == ']' && s[c + 1] == '\n';
    assert forall m :: c + 1 < m <= |s| ==> !OnOneLine(s, 1, m) by {
      assert IsLineTerminator(s[c + 1]);
    }
  }

  /** Only the first code goes: the replacement is not global. */
  lemma StripIsNotGlobal(s: string)
    requires s == "[a]\n[b]"
    ensures StripBracketCode(s) == "[b]"
  {
    var code, text := "a", "[b]";
    assert s == "[" + code + "]\n" + text;
    StripFirstLineCode(code, text);
  }
}
