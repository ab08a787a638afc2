/** The string helpers of Go's strings package that the system uses. */
module Text {

  // unicode.IsSpace
  predicate IsSpace(c: char) {
    || '\t' <= c <= '\r' || c == ' ' || c == '\U{85}' || c == '\U{A0}' || c == '\U{1680}'
    || '\U{2000}' <= c <= '\U{200A}' || c == '\U{2028}' || c == '\U{2029}' || c == '\U{202F}'
    || c == '\U{205F}' || c == '\U{3000}'
  }

  function TrimLeft(s: string): string {
    if s != "" && IsSpace(s[0]) then TrimLeft(s[1..]) else s
  }

  function TrimRight(s: string): string {
    if s != "" && IsSpace(s[|s| - 1]) then TrimRight(s[..|s| - 1]) else s
  }

  /** strings.TrimSpace */
  function TrimSpace(s: string): string { TrimRight(TrimLeft(s)) }

  // t is what s has from position a on, and only spaces are around it.
  predicate TrimmedAt(s: string, t: string, a: int) {
    && 0 <= a && a + |t| <= |s| && s[a..a + |t|] == t
    && (forall i | 0 <= i < a :: IsSpace(s[i]))
    && (forall i | a + |t| <= i < |s| :: IsSpace(s[i]))
  }

  lemma {:induction false} TrimLeftExactly(s: string)
    ensures |TrimLeft(s)| <= |s| && TrimmedAt(s, TrimLeft(s), |s| - |TrimLeft(s)|)
    ensures TrimLeft(s) != "" ==> !IsSpace(TrimLeft(s)[0])
  {
    hide IsSpace;
    if s != "" && IsSpace(s[0]) {
      var rest := s[1..];
      TrimLeftExactly(rest);
      var t := TrimLeft(rest);
      var a := |rest| - |t|;
      assert s[a + 1..a + 1 + |t|] == rest[a..a + |t|];
      forall i | 0 <= i < a + 1 ensures IsSpace(s[i]) {
        assert i > 0 ==> s[i] == rest[i - 1];
      }
    }
  }

  lemma {:induction false} TrimRightExactly(s: string)
    ensures |TrimRight(s)| <= |s| && TrimmedAt(s, TrimRight(s), 0)
    ensures TrimRight(s) != "" ==> !IsSpace(TrimRight(s)[|TrimRight(s)| - 1])
  {
    hide IsSpace;
    if s != "" && IsSpace(s[|s| - 1]) {
      var rest := s[..|s| - 1];
      TrimRightExactly(rest);
      assert s[..|TrimRight(rest)|] == rest[..|TrimRight(rest)|];
    }
  }

  /** Nothing but the spaces around the text is taken away, and all of them are. */
  lemma TrimSpaceExactly(s: string)
    ensures exists a :: TrimmedAt(s, TrimSpace(s), a)
    ensures TrimSpace(s) != "" ==> !IsSpace(TrimSpace(s)[0]) && !IsSpace(TrimSpace(s)[|TrimSpace(s)| - 1])
  {
    hide IsSpace, TrimLeft, TrimRight;
    var left, t := TrimLeft(s), TrimSpace(s);
    TrimLeftExactly(s);
    TrimRightExactly(left);
    var a := |s| - |left|;
    assert t == left[..|t|] && left == s[a..];
    assert s[a..a + |t|] == t;
    forall i | a + |t| <= i < |s| ensures IsSpace(s[i]) {
      assert s[i] == left[i - a];
    }
    assert TrimmedAt(s, t, a);
    assert t != "" ==> t[0] == left[0];
  }

  predicate Blank(s: string) { forall i | 0 <= i < |s| :: IsSpace(s[i]) }

  /** Trimming leaves nothing of a blank text, and of no other. */
  lemma BlankExactly(s: string)
    ensures TrimSpace(s) == "" <==> Blank(s)
  {
    hide IsSpace, TrimSpace;
    TrimSpaceExactly(s);
    var t := TrimSpace(s);
    var a :| TrimmedAt(s, t, a);
    if t != "" {
      assert s[a] == s[a..a + |t|][0] == t[0];
    }
  }
}
