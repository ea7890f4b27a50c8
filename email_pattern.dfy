/** The e-mail check both sign-up forms use: the regular expression
    `^[^\s@]+@[^\s@]+\.[^\s@]+$`, stated as a pattern over strings and
    decided by a scan. */
module EmailPattern {
  import opened JsText
  import opened Lists

  /** A character of `[^\s@]`: neither white space nor '@'. */
  predicate RunChar(c: char) {
    !IsJsWhitespace(c) && c != '@'
  }

  /** `[^\s@]+` matches `s[a..b]`: a non-empty stretch of run characters. */
  predicate RunAt(s: string, a: int, b: int)
    requires 0 <= a <= b <= |s|
  {
    a < b && forall k :: a <= k < b ==> RunChar(s[k])
  }

  /** The whole string is run '@' run '.' run. A run may itself hold dots,
      so the '.' may be any dot after the first character past the '@'. */
  ghost predicate MatchesPattern(s: string) {
    exists i, j :: 0 <= i < j < |s| && s[i] == '@' && s[j] == '.'
                   && RunAt(s, 0, i) && RunAt(s, i + 1, j) && RunAt(s, j + 1, |s|)
  }

  /** No white space anywhere in `s`. */
  predicate NoWhitespace(s: string) {
    forall k :: 0 <= k < |s| ==> !IsJsWhitespace(s[k])
  }

  /** `isValidEmail`: the first '@' has something before it, no other '@'
      follows, nothing is white space, and a '.' stands strictly inside
      the part after the '@'. */
  predicate IsValidEmail(s: string) {
    var i := IndexOf(s, '@');
    0 < i && i + 4 <= |s| && NoWhitespace(s) && '@' !in s[i + 1..] && '.' in s[i + 2..|s| - 1]
  }

  /** The scan accepts exactly the strings the regular expression matches. */
  lemma IsValidEmailIffPattern(s: string)
    ensures IsValidEmail(s) <==> MatchesPattern(s)
  {
    if IsValidEmail(s) {
      AcceptedMatches(s, IndexOf(s, '@'));
    }
    if MatchesPattern(s) {
      MatchesAccepted(s);
    }
  }

  /** A character absent from a slice is absent at each of its positions. */
  lemma NotInSlice(s: string, a: int, b: int, c: char)
    requires 0 <= a <= b <= |s| && c !in s[a..b]
    ensures forall k :: a <= k < b ==> s[k] != c
  {
    forall k | a <= k < b
      ensures s[k] != c
    {
      assert s[k] == s[a..b][k - a];
    }
  }

  /** The first occurrence found by `IndexOf` and no other after it: then
      it is the only occurrence. */
  lemma OnlyOccurrence(s: string, i: int, c: char)
    requires i == IndexOf(s, c) && 0 <= i && c !in s[i + 1..]
    ensures forall k :: 0 <= k < |s| && k != i ==> s[k] != c
  {
    assert s[..i] == s[0..i];
    NotInSlice(s, 0, i, c);
    assert s[i + 1..] == s[i + 1..|s|];
    NotInSlice(s, i + 1, |s|, c);
  }

  /** A position holding `c` with no `c` before it is what `IndexOf` finds. */
  lemma IndexOfIs(s: string, c: char, i: int)
    requires 0 <= i < |s| && s[i] == c
    requires forall k :: 0 <= k < i ==> s[k] != c
    ensures IndexOf(s, c) == i
  {
    assert c in s;
  }

  /** The dot the scan finds in the part after the '@'. */
  lemma DotAfter(s: string, i: int) returns (j: int)
    requires 0 <= i && i + 4 <= |s| && '.' in s[i + 2..|s| - 1]
    ensures i + 1 < j < |s| - 1 && s[j] == '.'
  {
    var mid := s[i + 2..|s| - 1];
    j := IndexOf(mid, '.') + i + 2;
    assert s[j] == mid[j - i - 2];
  }

  /** A string the scan accepts matches the pattern. */
  lemma AcceptedMatches(s: string, i: int)
    requires i == IndexOf(s, '@')
    requires 0 < i && i + 4 <= |s| && NoWhitespace(s) && '@' !in s[i + 1..] && '.' in s[i + 2..|s| - 1]
    ensures MatchesPattern(s)
  {
    OnlyOccurrence(s, i, '@');
    var j := DotAfter(s, i);
    assert RunAt(s, 0, i) && RunAt(s, i + 1, j) && RunAt(s, j + 1, |s|);
  }

  /** A string matching the pattern is accepted by the scan. */
  lemma MatchesAccepted(s: string)
    requires MatchesPattern(s)
    ensures IsValidEmail(s)
  {
    var i, j :| 0 <= i < j < |s| && s[i] == '@' && s[j] == '.'
                && RunAt(s, 0, i) && RunAt(s, i + 1, j) && RunAt(s, j + 1, |s|);
    forall k | 0 <= k < |s|
      ensures !IsJsWhitespace(s[k]) && (k != i ==> s[k] != '@')
    {
      if k < i { assert RunChar(s[k]); }
      else if i < k < j { assert RunChar(s[k]); }
      else if j < k { assert RunChar(s[k]); }
    }
    IndexOfIs(s, '@', i);
    var rest := s[i + 1..];
    forall k | 0 <= k < |rest|
      ensures rest[k] != '@'
    {
      assert rest[k] == s[i + 1 + k];
    }
    assert s[i + 2..|s| - 1][j - i - 2] == '.';
  }

  /** An accepted address has exactly one '@' and no white space. */
  lemma AcceptedShape(s: string)
    requires IsValidEmail(s)
    ensures NoWhitespace(s)
    ensures exists i :: 0 <= i < |s| && s[i] == '@' && forall k :: 0 <= k < |s| && k != i ==> s[k] != '@'
  {
    OnlyOccurrence(s, IndexOf(s, '@'), '@');
  }

  /** Visible ASCII characters are not white space. */
  lemma VisibleAsciiHasNoWhitespace(s: string)
    requires forall k :: 0 <= k < |s| ==> '!' <= s[k] <= '~'
    ensures NoWhitespace(s)
  {
  }

  /** "a.b@c.d.e" holds no white space. */
  lemma DottedAddressHasNoWhitespace()
    ensures NoWhitespace("a.b@c.d.e")
  {
    var s := "a.b@c.d.e";
    assert forall k :: 0 <= k < |s| ==> '!' <= s[k] <= '~';
    VisibleAsciiHasNoWhitespace(s);
  }

  /** The first '@' of "a.b@c.d.e" is at position 3. */
  lemma DottedAddressAt()
    ensures IndexOf("a.b@c.d.e", '@') == 3
  {
    IndexOfIs("a.b@c.d.e", '@', 3);
  }

  /** After the '@' of "a.b@c.d.e" there is no other '@' and a dot
      stands strictly inside. */
  lemma DottedAddressHost()
    ensures '@' !in "a.b@c.d.e"[4..]
    ensures '.' in "a.b@c.d.e"[5..8]
  {
    assert "a.b@c.d.e"[4..] == "c.d.e";
    assert "a.b@c.d.e"[5..8] == ".d.";
  }

  /** A dot inside the host part and dots before the '@' are allowed. */
  lemma AcceptsDottedAddress()
    ensures IsValidEmail("a.b@c.d.e")
  {
    DottedAddressAt();
    DottedAddressHasNoWhitespace();
    DottedAddressHost();
  }

  /** The last run after the dot may not be empty. */
  lemma RejectsTrailingDot()
    ensures !IsValidEmail("a@b.")
  {
    assert IndexOf("a@b.", '@') == 1;
  }

  /** A second '@' is refused. */
  lemma RejectsTwoAts()
    ensures !IsValidEmail("a@b@c.d")
  {
    assert IndexOf("a@b@c.d", '@') == 1;
    assert "a@b@c.d"[2..][1] == '@';
  }
}
