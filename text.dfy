/** The three string operations the prediction script applies to its
    category inputs, as Python's `str.strip()`, `str.upper()` and
    `str.title()` behave on ASCII text. Characters outside ASCII are left
    as they are. */
module Text {

  /** Python's whitespace among the ASCII characters: tab, line feed,
      vertical tab, form feed, carriage return (9..13), the four
      information separators (28..31) and the space (32). */
  predicate IsSpace(c: char) {
    9 <= c as int <= 13 || 28 <= c as int <= 32
  }

  predicate IsLower(c: char) { 'a' <= c <= 'z' }

  predicate IsUpper(c: char) { 'A' <= c <= 'Z' }

  /** A cased character, in the sense of Python's `str.title()`. */
  predicate IsLetter(c: char) { IsLower(c) || IsUpper(c) }

  function UpperChar(c: char): (u: char)
    ensures !IsLower(u)
    ensures IsLetter(u) == IsLetter(c) && IsSpace(u) == IsSpace(c)
    ensures !IsLower(c) ==> u == c
  {
    if IsLower(c) then (c as int - 32) as char else c
  }

  function LowerChar(c: char): (l: char)
    ensures !IsUpper(l)
    ensures IsLetter(l) == IsLetter(c) && IsSpace(l) == IsSpace(c)
    ensures !IsUpper(c) ==> l == c
  {
    if IsUpper(c) then (c as int + 32) as char else c
  }

  /** Every character is whitespace. */
  predicate AllSpace(s: string) {
    forall i :: 0 <= i < |s| ==> IsSpace(s[i])
  }

  /** No whitespace at either end. */
  predicate Trimmed(s: string) {
    s == [] || (!IsSpace(s[0]) && !IsSpace(s[|s| - 1]))
  }

  /** `s` with its leading whitespace removed. */
  function StripLeft(s: string): string {
    if s != [] && IsSpace(s[0]) then StripLeft(s[1..]) else s
  }

  /** `s` with its trailing whitespace removed. */
  function StripRight(s: string): string {
    if s != [] && IsSpace(s[|s| - 1]) then StripRight(s[..|s| - 1]) else s
  }

  /** How many characters `strip()` removes at the front. */
  function LeadingSpaces(s: string): nat {
    StripLeftSpec(s);
    |s| - |StripLeft(s)|
  }

  /** Python's `s.strip()`: no whitespace is left at either end, and
      nothing is added. */
  function Strip(s: string): (r: string)
    ensures Trimmed(r) && |r| <= |s|
  {
    StripLeftSpec(s);
    StripRightSpec(StripLeft(s));
    StripRight(StripLeft(s))
  }

  /** Python's `s.upper()`: every lower-case letter mapped to its capital,
      one character for one. */
  function Upper(s: string): (r: string)
    ensures |r| == |s|
    ensures s != [] ==> r[0] == UpperChar(s[0])
  {
    if s == [] then [] else [UpperChar(s[0])] + Upper(s[1..])
  }

  /** The character `str.title()` writes at a position, given whether the
      character before it in the input was a letter: a letter that follows
      a letter is lowered, anything else is capitalised. */
  function TitleChar(c: char, afterLetter: bool): char {
    if afterLetter then LowerChar(c) else UpperChar(c)
  }

  /** Whether the input character just before position `i` is a letter
      (false at the start of the string). */
  predicate AfterLetter(s: string, i: int)
    requires 0 <= i <= |s|
  {
    i > 0 && IsLetter(s[i - 1])
  }

  /** `str.title()` scanning `s` left to right, where `afterLetter` says
      whether the character before `s` was a letter. */
  function TitleFrom(s: string, afterLetter: bool): string {
    if s == [] then [] else [TitleChar(s[0], afterLetter)] + TitleFrom(s[1..], IsLetter(s[0]))
  }

  /** Python's `s.title()`: one character for one, and the first
      character starts a word. */
  function Title(s: string): (r: string)
    ensures |r| == |s|
    ensures s != [] ==> r[0] == UpperChar(s[0])
  {
    TitleFromSpec(s, false);
    TitleFrom(s, false)
  }

  // ---------------------------------------------------------------------
  // Properties

  /** `StripLeft` keeps a suffix that starts with a non-space, and
      everything it cuts off is whitespace. */
  lemma {:induction false} StripLeftSpec(s: string)
    ensures |StripLeft(s)| <= |s| && StripLeft(s) == s[|s| - |StripLeft(s)|..]
    ensures StripLeft(s) == [] || !IsSpace(StripLeft(s)[0])
    ensures AllSpace(s[..|s| - |StripLeft(s)|])
  {
    if s != [] && IsSpace(s[0]) {
      StripLeftSpec(s[1..]);
      var r := StripLeft(s[1..]);
      assert s[..|s| - |r|] == [s[0]] + s[1..][..|s| - 1 - |r|];
    }
  }

  /** `StripRight` keeps a prefix that ends with a non-space, and
      everything it cuts off is whitespace. */
  lemma {:induction false} StripRightSpec(s: string)
    ensures |StripRight(s)| <= |s| && StripRight(s) == s[..|StripRight(s)|]
    ensures StripRight(s) == [] || !IsSpace(StripRight(s)[|StripRight(s)| - 1])
    ensures AllSpace(s[|StripRight(s)|..])
  {
    if s != [] && IsSpace(s[|s| - 1]) {
      var t := s[..|s| - 1];
      StripRightSpec(t);
      var r := StripRight(t);
      assert s[|r|..] == t[|r|..] + [s[|s| - 1]];
    }
  }

  /** Stripping leaves a contiguous piece of the input with whitespace at
      neither end, and everything removed around it is whitespace. */
  lemma {:induction false} StripSpec(s: string)
    ensures Trimmed(Strip(s))
    ensures LeadingSpaces(s) + |Strip(s)| <= |s|
    ensures Strip(s) == s[LeadingSpaces(s)..LeadingSpaces(s) + |Strip(s)|]
    ensures AllSpace(s[..LeadingSpaces(s)])
    ensures AllSpace(s[LeadingSpaces(s) + |Strip(s)|..])
  {
    var l := StripLeft(s);
    var a := |s| - |l|;
    var r := StripRight(l);
    StripLeftSpec(s);
    StripRightSpec(l);
    assert l == s[a..];
    SliceOfSuffix(s, a, |r|);
    assert l[|r|..] == s[a + |r|..];
  }

  lemma SliceOfSuffix(s: string, a: nat, n: nat)
    requires a + n <= |s|
    ensures s[a..][..n] == s[a..a + n]
  {
  }

  /** A trimmed string is its own strip. */
  lemma StripTrimmed(s: string)
    requires Trimmed(s)
    ensures Strip(s) == s
  {
  }

  lemma {:induction false} StripIdempotent(s: string)
    ensures Strip(Strip(s)) == Strip(s)
  {
    StripSpec(s);
    StripTrimmed(Strip(s));
  }

  /** Leading whitespace makes no difference to `StripLeft`. */
  lemma {:induction false} StripLeftPadded(pre: string, s: string)
    requires AllSpace(pre)
    ensures StripLeft(pre + s) == StripLeft(s)
  {
    if pre != [] {
      assert IsSpace(pre[0]) && (pre + s)[0] == pre[0];
      assert (pre + s)[1..] == pre[1..] + s;
      assert AllSpace(pre[1..]) by {
        forall i | 0 <= i < |pre| - 1 ensures IsSpace(pre[1..][i]) {
          assert pre[1..][i] == pre[i + 1];
        }
      }
      StripLeftPadded(pre[1..], s);
    } else {
      assert pre + s == s;
    }
  }

  /** Trailing whitespace makes no difference to `StripRight`. */
  lemma {:induction false} StripRightPadded(s: string, post: string)
    requires AllSpace(post)
    ensures StripRight(s + post) == StripRight(s)
  {
    if post != [] {
      var n := |post| - 1;
      assert IsSpace(post[n]) && (s + post)[|s + post| - 1] == post[n];
      assert (s + post)[..|s + post| - 1] == s + post[..n];
      assert AllSpace(post[..n]) by {
        forall i | 0 <= i < n ensures IsSpace(post[..n][i]) {
          assert post[..n][i] == post[i];
        }
      }
      StripRightPadded(s, post[..n]);
    } else {
      assert s + post == s;
    }
  }

  /** `strip()` undoes any whitespace padding of a trimmed string. */
  lemma {:induction false} StripPadded(pre: string, s: string, post: string)
    requires AllSpace(pre) && AllSpace(post) && Trimmed(s)
    ensures Strip(pre + s + post) == s
  {
    assert pre + s + post == pre + (s + post);
    StripLeftPadded(pre, s + post);
    if s == [] {
      assert s + post == post;
      StripLeftPadded(post, []);
      assert post + [] == post;
    } else {
      assert StripLeft(s + post) == s + post;
      StripRightPadded(s, post);
      StripTrimmed(s);
    }
  }

  /** Upper-casing maps each character on its own: it leaves no lower-case
      letter and keeps whitespace where it was, so the ends of a trimmed
      string stay trimmed. */
  lemma {:induction false} UpperSpec(s: string)
    ensures |Upper(s)| == |s|
    ensures forall i {:trigger Upper(s)[i]} :: 0 <= i < |s| ==> Upper(s)[i] == UpperChar(s[i])
    ensures forall i {:trigger Upper(s)[i]} :: 0 <= i < |s| ==> !IsLower(Upper(s)[i])
    ensures Trimmed(s) ==> Trimmed(Upper(s))
  {
    if s != [] {
      UpperSpec(s[1..]);
      forall i | 0 < i < |s| ensures Upper(s)[i] == UpperChar(s[i]) {
        assert Upper(s)[i] == Upper(s[1..])[i - 1];
      }
    }
  }

  lemma {:induction false} UpperIdempotent(s: string)
    ensures Upper(Upper(s)) == Upper(s)
  {
    UpperSpec(s);
    UpperSpec(Upper(s));
  }

  /** `TitleFrom` decides each position from the input character before
      it; only the first position depends on the flag passed in. */
  lemma {:induction false} TitleFromSpec(s: string, afterLetter: bool)
    ensures |TitleFrom(s, afterLetter)| == |s|
    ensures s != [] ==> TitleFrom(s, afterLetter)[0] == TitleChar(s[0], afterLetter)
    ensures forall i {:trigger TitleFrom(s, afterLetter)[i]} :: 0 < i < |s| ==>
              TitleFrom(s, afterLetter)[i] == TitleChar(s[i], IsLetter(s[i - 1]))
  {
    if s != [] {
      var rest := TitleFrom(s[1..], IsLetter(s[0]));
      TitleFromSpec(s[1..], IsLetter(s[0]));
      forall i | 0 < i < |s|
        ensures TitleFrom(s, afterLetter)[i] == TitleChar(s[i], IsLetter(s[i - 1]))
      {
        assert TitleFrom(s, afterLetter)[i] == rest[i - 1];
      }
    }
  }

  /** The pointwise reading of `str.title()`: a letter is a capital exactly
      when it starts a word (the input character just before it is not a
      letter), and a lower-case letter
      otherwise; every other character is kept. */
  lemma {:induction false} TitleSpec(s: string)
    ensures |Title(s)| == |s|
    ensures forall i {:trigger Title(s)[i]} :: 0 <= i < |s| ==>
              Title(s)[i] == TitleChar(s[i], AfterLetter(s, i))
    ensures forall i {:trigger Title(s)[i]} :: 0 <= i < |s| && IsLetter(s[i]) ==>
              (IsUpper(Title(s)[i]) <==> !AfterLetter(s, i))
    ensures forall i {:trigger Title(s)[i]} :: 0 <= i < |s| && !IsLetter(s[i]) ==> Title(s)[i] == s[i]
  {
    var t := Title(s);
    TitleFromSpec(s, false);
    forall i | 0 <= i < |s| ensures t[i] == TitleChar(s[i], AfterLetter(s, i)) {
      if i == 0 {
        assert t[0] == TitleChar(s[0], false);
      } else {
        assert t[i] == TitleChar(s[i], IsLetter(s[i - 1]));
      }
    }
  }

  /** Title-casing keeps whitespace where it was. */
  lemma TitleTrimmed(s: string)
    requires Trimmed(s)
    ensures Trimmed(Title(s))
  {
    TitleSpec(s);
  }

  /** Applying `str.title()` twice changes nothing more: title-casing keeps
      which characters are letters, so every word starts where it did. */
  lemma {:induction false} TitleIdempotent(s: string)
    ensures Title(Title(s)) == Title(s)
  {
    var t := Title(s);
    TitleSpec(s);
    TitleSpec(t);
    forall i | 0 <= i < |s| ensures Title(t)[i] == t[i] {
      assert AfterLetter(t, i) == AfterLetter(s, i);
    }
  }
}
