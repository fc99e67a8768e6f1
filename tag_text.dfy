/**
 The two string operations applied to the text of Object.prototype.toString:
 a global replacement of the regular expression /\[object |]/ (with or
 without the i flag) by the empty string, and lower-casing.
 */
module TagText {

  const Prefix: string := "[object "

  predicate IsAsciiUpper(c: char) {
    'A' <= c <= 'Z'
  }

  predicate IsAsciiLower(c: char) {
    'a' <= c <= 'z'
  }

  function AsciiToUpper(c: char): char {
    if IsAsciiLower(c) then (c as int - 32) as char else c
  }

  function AsciiToLower(c: char): char {
    if IsAsciiUpper(c) then (c as int + 32) as char else c
  }

  /** Whether the input character `c` matches the pattern character `p`.
      With the i flag both are canonicalized first (section 21.2.2.8.2 of
      ECMA-262 2015, without the u flag). For the ASCII pattern characters
      used here that is exactly ASCII upper-casing: a character at or above
      128 never canonicalizes to one below 128. */
  predicate CharMatches(c: char, p: char, ignoreCase: bool) {
    if ignoreCase then AsciiToUpper(c) == AsciiToUpper(p) else c == p
  }

  /** The alternative "[object " of the pattern matches at the start of `s`. */
  predicate PrefixMatchesAt(s: string, ignoreCase: bool) {
    |s| >= |Prefix| && forall i :: 0 <= i < |Prefix| ==> CharMatches(s[i], Prefix[i], ignoreCase)
  }

  /** `s.replace(/\[object |]/g, '')`, or with the `gi` flags when
      `ignoreCase` holds. The global replacement scans left to right; at
      each position it tries "[object " and then "]", drops a match and
      resumes after it, and otherwise keeps one character. */
  function Strip(s: string, ignoreCase: bool): (r: string)
    ensures |r| <= |s|
    ensures forall i :: 0 <= i < |r| ==> r[i] != ']'
    decreases |s|
  {
    if |s| == 0 then []
    else if PrefixMatchesAt(s, ignoreCase) then Strip(s[|Prefix|..], ignoreCase)
    else if s[0] == ']' then Strip(s[1..], ignoreCase)
    else [s[0]] + Strip(s[1..], ignoreCase)
  }

  /** `a` and `b` have the same length and the same letters up to ASCII case. */
  predicate EqualIgnoringCase(a: string, b: string) {
    |a| == |b| && forall i :: 0 <= i < |a| ==> AsciiToUpper(a[i]) == AsciiToUpper(b[i])
  }

  predicate HasNoUpper(s: string) {
    forall i :: 0 <= i < |s| ==> !IsAsciiUpper(s[i])
  }

  /** `s.toLowerCase()` on ASCII text: the same text up to case, with no
      upper-case letter left. */
  function Lower(s: string): (r: string)
    ensures EqualIgnoringCase(r, s)
    ensures HasNoUpper(r)
  {
    seq(|s|, i requires 0 <= i < |s| => AsciiToLower(s[i]))
  }

  /** Lower's contract determines its result: there is exactly one string
      without upper-case letters that equals `s` up to case. */
  lemma LowerIsUnique(s: string, t: string)
    requires EqualIgnoringCase(t, s) && HasNoUpper(t)
    ensures t == Lower(s)
  {
    var r := Lower(s);
    forall i | 0 <= i < |s|
      ensures t[i] == r[i]
    {
      assert AsciiToUpper(t[i]) == AsciiToUpper(r[i]);
    }
  }

  lemma LowerIsIdempotent(s: string)
    ensures Lower(Lower(s)) == Lower(s)
  {
    LowerIsUnique(Lower(s), Lower(s));
  }

  predicate NoBrackets(t: string) {
    forall i :: 0 <= i < |t| ==> t[i] != '[' && t[i] != ']'
  }

  /** Text without brackets followed by one "]" loses exactly the "]". */
  lemma {:induction false} StripKeepsPlainText(t: string, ignoreCase: bool)
    requires NoBrackets(t)
    ensures Strip(t + "]", ignoreCase) == t
    decreases |t|
  {
    var s := t + "]";
    if |t| == 0 {
      assert s == "]";
    } else {
      assert !CharMatches(s[0], Prefix[0], ignoreCase);
      assert s[1..] == t[1..] + "]";
      StripKeepsPlainText(t[1..], ignoreCase);
    }
  }

  /** The replacement takes "[object " + t + "]" back to `t`, with or
      without the i flag, for any bracket-free `t`. */
  lemma StripDecoration(t: string, ignoreCase: bool)
    requires NoBrackets(t)
    ensures Strip(Prefix + t + "]", ignoreCase) == t
  {
    var s := Prefix + t + "]";
    assert PrefixMatchesAt(s, ignoreCase) by {
      forall i | 0 <= i < |Prefix|
        ensures CharMatches(s[i], Prefix[i], ignoreCase)
      {
        assert s[i] == Prefix[i];
      }
    }
    assert s[|Prefix|..] == t + "]";
    StripKeepsPlainText(t, ignoreCase);
  }

  /** The i flag matters only for text that is not a built-in tag string:
      an upper-case "[OBJECT " is removed when case is ignored ... */
  lemma IgnoreCaseStripsUpperPrefix(t: string)
    requires NoBrackets(t)
    ensures Strip("[OBJECT " + t + "]", true) == t
  {
    var s := "[OBJECT " + t + "]";
    assert PrefixMatchesAt(s, true) by {
      forall i | 0 <= i < |Prefix|
        ensures CharMatches(s[i], Prefix[i], true)
      {
        assert AsciiToUpper(s[i]) == AsciiToUpper(Prefix[i]);
      }
    }
    assert s[|Prefix|..] == t + "]";
    StripKeepsPlainText(t, true);
  }

  /** A "[" that does not start a match of "[object " is kept, and the
      bracket-free rest loses only its closing "]". */
  lemma StripKeepsUnmatchedBracket(u: string, ignoreCase: bool)
    requires NoBrackets(u)
    requires !PrefixMatchesAt("[" + u + "]", ignoreCase)
    ensures Strip("[" + u + "]", ignoreCase) == "[" + u
  {
    var s := "[" + u + "]";
    assert s[1..] == u + "]";
    StripKeepsPlainText(u, ignoreCase);
  }

  /** ... and kept when it is not. */
  lemma CaseSensitiveKeepsUpperPrefix(t: string)
    requires NoBrackets(t)
    ensures Strip("[OBJECT " + t + "]", false) == "[OBJECT " + t
  {
    var u := "OBJECT " + t;
    assert "[OBJECT " + t + "]" == "[" + u + "]";
    assert "[OBJECT " + t == "[" + u;
    assert !PrefixMatchesAt("[" + u + "]", false) by {
      assert !CharMatches(("[" + u + "]")[1], Prefix[1], false);
    }
    StripKeepsUnmatchedBracket(u, false);
  }
}
