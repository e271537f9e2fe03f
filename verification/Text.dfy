/** White-space trimming as the runtime applies it to every identifier and text payload. */
module Text {

  /** The code points Go's unicode.IsSpace accepts. */
  predicate IsSpace(c: char) {
    || c in {'\t', '\n', '\U{0B}', '\U{0C}', '\r', ' ', '\U{85}', '\U{A0}', '\U{1680}'}
    || '\U{2000}' <= c <= '\U{200A}'
    || c in {'\U{2028}', '\U{2029}', '\U{202F}', '\U{205F}', '\U{3000}'}
  }

  function TrimLeft(s: string): (r: string)
    ensures r == s || (s != "" && IsSpace(s[0]))
    ensures r == "" || !IsSpace(r[0])
  {
    if s != "" && IsSpace(s[0]) then TrimLeft(s[1..]) else s
  }

  function TrimRight(s: string): (r: string)
    ensures r <= s
    ensures r == s || (s != "" && IsSpace(s[|s| - 1]))
    ensures r == "" || !IsSpace(r[|r| - 1])
  {
    if s != "" && IsSpace(s[|s| - 1]) then TrimRight(s[..|s| - 1]) else s
  }

  /** Drops the white space at both ends. */
  function TrimSpace(s: string): (r: string)
    ensures r == "" || (!IsSpace(r[0]) && !IsSpace(r[|r| - 1]))
    ensures s == "" || (!IsSpace(s[0]) && !IsSpace(s[|s| - 1])) ==> r == s
  {
    TrimRight(TrimLeft(s))
  }

  /** Trimming a trimmed text changes nothing, so a stored identifier reads back as itself. */
  lemma TrimIdempotent(s: string)
    ensures TrimSpace(TrimSpace(s)) == TrimSpace(s)
  {}

  ghost predicate AllSpace(s: string) { forall i :: 0 <= i < |s| ==> IsSpace(s[i]) }

  lemma {:induction false} TrimLeftDrops(s: string)
    ensures var r := TrimLeft(s); |r| <= |s| && r == s[|s| - |r|..] && AllSpace(s[..|s| - |r|])
  {
    if s != "" && IsSpace(s[0]) { TrimLeftDrops(s[1..]); }
  }

  lemma {:induction false} TrimRightDrops(s: string)
    ensures var r := TrimRight(s); |r| <= |s| && r == s[..|r|] && AllSpace(s[|r|..])
  {
    if s != "" && IsSpace(s[|s| - 1]) {
      var init := s[..|s| - 1];
      TrimRightDrops(init);
      assert forall i :: |TrimRight(init)| <= i < |init| ==> s[i] == init[|TrimRight(init)|..][i - |TrimRight(init)|];
    }
  }

  /** The trimmed text is a middle piece of the text, and what stands before and after it is white
      space only. */
  lemma TrimDropsOnlySpace(s: string)
    ensures exists i :: 0 <= i <= |s| - |TrimSpace(s)| && s[i..i + |TrimSpace(s)|] == TrimSpace(s)
                        && AllSpace(s[..i]) && AllSpace(s[i + |TrimSpace(s)|..])
  {
    var left := TrimLeft(s);
    var r := TrimSpace(s);
    TrimLeftDrops(s);
    TrimRightDrops(left);
    var i := |s| - |left|;
    assert s[i..i + |r|] == left[..|r|];
    assert s[i + |r|..] == left[|r|..];
  }

  lemma AlreadyTrimmed(s: string)
    requires s != "" && !IsSpace(s[0]) && !IsSpace(s[|s| - 1])
    ensures TrimSpace(s) == s
  {}
}
