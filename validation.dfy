/**
  Validation of the operator-entered rate and volume texts, as done by
  `run_update` and `deliver_volume`: Python's `str.strip()` and the test
  `t[1:].isdigit()` on the stripped text, over ASCII characters.
 */
module Validation {
  import opened Wrappers

  /** Python's `str.isspace` restricted to ASCII: blank, \t \n \v \f \r and \x1c-\x1f. */
  predicate IsSpace(c: char) {
    c == ' ' || ('\t' <= c <= '\r') || ('\U{1C}' <= c <= '\U{1F}')
  }

  /** Python's `str.isdigit` on one ASCII character. */
  predicate IsDigit(c: char) {
    '0' <= c <= '9'
  }

  /** `s.lstrip()`: drops the leading run of white space. */
  function TrimLeft(s: string): string
    decreases |s|
  {
    if |s| > 0 && IsSpace(s[0]) then TrimLeft(s[1..]) else s
  }

  /** `s.rstrip()`: drops the trailing run of white space. */
  function TrimRight(s: string): string
    decreases |s|
  {
    if |s| > 0 && IsSpace(s[|s| - 1]) then TrimRight(s[..|s| - 1]) else s
  }

  /** `s.strip()`. */
  function Trim(s: string): string {
    TrimRight(TrimLeft(s))
  }

  /** lstrip removes a prefix made only of white space, and stops at a non-blank character. */
  lemma {:induction false} TrimLeftSpec(s: string)
    ensures |TrimLeft(s)| <= |s| && TrimLeft(s) == s[|s| - |TrimLeft(s)|..]
    ensures forall k :: 0 <= k < |s| - |TrimLeft(s)| ==> IsSpace(s[k])
    ensures TrimLeft(s) == [] || !IsSpace(TrimLeft(s)[0])
    decreases |s|
  {
    if |s| > 0 && IsSpace(s[0]) {
      TrimLeftSpec(s[1..]);
    }
  }

  /** rstrip removes a suffix made only of white space, and stops at a non-blank character. */
  lemma {:induction false} TrimRightSpec(s: string)
    ensures |TrimRight(s)| <= |s| && TrimRight(s) == s[..|TrimRight(s)|]
    ensures forall k :: |TrimRight(s)| <= k < |s| ==> IsSpace(s[k])
    ensures TrimRight(s) == [] || !IsSpace(TrimRight(s)[|TrimRight(s)| - 1])
    decreases |s|
  {
    if |s| > 0 && IsSpace(s[|s| - 1]) {
      TrimRightSpec(s[..|s| - 1]);
    }
  }

  /**
    `t` is `s` with a run of white space removed at each end, `t` starting at
    index `i` of `s`.
   */
  ghost predicate StrippedAt(s: string, i: int, t: string) {
    0 <= i && i + |t| <= |s| && s[i..i + |t|] == t
    && (forall k :: 0 <= k < i ==> IsSpace(s[k]))
    && (forall k :: i + |t| <= k < |s| ==> IsSpace(s[k]))
  }

  /** No white space at either end of `t`. */
  predicate Tight(t: string) {
    t == [] || (!IsSpace(t[0]) && !IsSpace(t[|t| - 1]))
  }

  /** strip removes white space, and only white space, at both ends, and leaves a tight text. */
  lemma TrimSpec(s: string)
    ensures Tight(Trim(s))
    ensures StrippedAt(s, |s| - |TrimLeft(s)|, Trim(s))
  {
    var l := TrimLeft(s);
    var r := TrimRight(l);
    var i := |s| - |l|;
    TrimLeftSpec(s);
    TrimRightSpec(l);
    assert r == s[i..i + |r|] by {
      assert l[..|r|] == s[i..][..|r|] == s[i..i + |r|];
    }
    forall k | i + |r| <= k < |s|
      ensures IsSpace(s[k])
    {
      assert s[k] == l[k - i];
    }
    assert r != [] ==> r[0] == l[0];
  }

  /**
    Trim is determined by what it promises: any tight `t` obtained from `s`
    by removing white space at both ends is `Trim(s)`.
   */
  lemma TrimUnique(s: string, i: int, t: string)
    requires StrippedAt(s, i, t) && Tight(t)
    ensures Trim(s) == t
  {
    var r := Trim(s);
    var j := |s| - |TrimLeft(s)|;
    TrimSpec(s);
    assert StrippedAt(s, j, r);
    assert r != [] ==> r[0] == s[j] && r[|r| - 1] == s[j + |r| - 1];
    assert t != [] ==> t[0] == s[i] && t[|t| - 1] == s[i + |t| - 1];
    // both start at the first and end at the last non-blank character of s
    assert r != [] && t != [] ==> i == j && |t| == |r|;
  }

  /** Stripping a tight text changes nothing, so `strip` is idempotent. */
  lemma TrimTight(t: string)
    requires Tight(t)
    ensures Trim(t) == t
  {
  }

  /** `u.isdigit()` on ASCII: non-empty and all digits. */
  predicate AllDigits(u: string) {
    |u| > 0 && forall k :: 0 <= k < |u| ==> IsDigit(u[k])
  }

  /** Python's slice `t[1:]`, which is empty for an empty `t`. */
  function DropFirst(t: string): string {
    if |t| == 0 then [] else t[1..]
  }

  /** The test of `run_update`: `str(raw).strip()[1:].isdigit()`. */
  predicate RateAccepted(raw: string) {
    AllDigits(DropFirst(Trim(raw)))
  }

  /**
    What the test means: the stripped text has at least two characters and
    every character after the first, whatever that first one is, is a digit.
   */
  predicate Accept(t: string) {
    |t| >= 2 && forall k :: 1 <= k < |t| ==> IsDigit(t[k])
  }

  lemma RateAcceptedMeans(raw: string)
    ensures RateAccepted(raw) <==> Accept(Trim(raw))
  {
  }

  /** The rate `run_update` sends for one pump: the stripped text if accepted, else "0". */
  function ResolveRate(raw: string): string {
    if RateAccepted(raw) then Trim(raw) else "0"
  }

  /**
    The rate sent is the stripped operator text when that passes the test,
    and "0" otherwise; what is sent is itself a tight text of at least two
    characters whose tail is digits, or "0"; and the stripped text is sent
    unchanged exactly when it passes the test or is the fallback "0" itself.
   */
  lemma ResolveRateSpec(raw: string)
    ensures RateAccepted(raw) ==> ResolveRate(raw) == Trim(raw)
    ensures !RateAccepted(raw) ==> ResolveRate(raw) == "0"
    ensures ResolveRate(raw) == "0" || (Accept(ResolveRate(raw)) && Tight(ResolveRate(raw)))
    ensures ResolveRate(raw) == Trim(raw) <==> (Accept(Trim(raw)) || Trim(raw) == "0")
  {
    RateAcceptedMeans(raw);
    TrimSpec(raw);
    if RateAccepted(raw) {
      var t := Trim(raw);
      assert IsDigit(t[|t| - 1]);
    }
  }

  /** What the rate field holds after `run_update`: unchanged if accepted, else "0". */
  function ResetField(raw: string): string {
    if RateAccepted(raw) then raw else "0"
  }

  /** The rates `run_update` sends, keyed by pump. */
  function ResolvedRates(fields: map<int, string>): (sent: map<int, string>)
    ensures sent.Keys == fields.Keys
  {
    map p | p in fields :: ResolveRate(fields[p])
  }

  /** The rate fields after `run_update` normalised them. */
  function ResetFields(fields: map<int, string>): (reset: map<int, string>)
    ensures reset.Keys == fields.Keys
  {
    map p | p in fields :: ResetField(fields[p])
  }

  /** Editing the field of one pump changes what is sent to, and reset for, that pump alone. */
  lemma EditOneField(fields: map<int, string>, p: int, raw: string)
    ensures ResolvedRates(fields[p := raw]) == ResolvedRates(fields)[p := ResolveRate(raw)]
    ensures ResetFields(fields[p := raw]) == ResetFields(fields)[p := ResetField(raw)]
  {
  }

  /** "0", the text a rejected field is reset to, is tight and itself rejected. */
  lemma ZeroRejected()
    ensures Trim("0") == "0" && !RateAccepted("0") && ResolveRate("0") == "0"
  {
  }

  /** Resolving the normalised field sends what resolving the original sent. */
  lemma ResolveAfterReset(raw: string)
    ensures ResolveRate(ResetField(raw)) == ResolveRate(raw)
    ensures ResetField(ResetField(raw)) == ResetField(raw)
  {
  }

  /**
    A second `run_update` with no edits in between sends exactly the rates of
    the first and leaves the fields as the first left them.
   */
  lemma RerunSendsSameRates(fields: map<int, string>)
    ensures ResolvedRates(ResetFields(fields)) == ResolvedRates(fields)
    ensures ResetFields(ResetFields(fields)) == ResetFields(fields)
  {
    var reset := ResetFields(fields);
    var again, sent := ResolvedRates(reset), ResolvedRates(fields);
    forall p | p in fields
      ensures again[p] == sent[p]
    {
      ResolveAfterReset(fields[p]);
    }
    assert again == sent;
    var twice := ResetFields(reset);
    forall p | p in fields
      ensures twice[p] == reset[p]
    {
      ResolveAfterReset(fields[p]);
    }
    assert twice == reset;
  }

  /** Accepted examples: signed and unsigned integers, and any first character. */
  lemma AcceptedExamples()
    ensures ResolveRate("100") == "100"
    ensures ResolveRate("-25") == "-25"
    ensures ResolveRate("a12") == "a12"
  {
  }

  /** Surrounding blanks are stripped before the test and before sending. */
  lemma StrippedExample()
    ensures ResolveRate(" 100 ") == "100"
  {
  }

  /** Rejected examples: one character, a fraction, an empty field. */
  lemma RejectedExamples()
    ensures ResolveRate("5") == "0"
    ensures ResolveRate("12.5") == "0"
    ensures ResolveRate("") == "0"
  {
  }

  /** Volume used by `deliver_volume` when the text does not parse as a float. */
  const DefaultVolume: real := 50.0

  /** The volume `deliver_volume` sends, given what `float` made of the stripped text. */
  function DeliveredVolume(parsed: Option<real>): (vol: real)
    ensures parsed.None? ==> vol == DefaultVolume
    ensures parsed.Some? ==> vol == parsed.value
  {
    parsed.GetOr(DefaultVolume)
  }
}
