/** How the notes of expenses and deductions are stored: stripped, named, and without the untouched rows of the form. */
module NoteTexts {
  import opened RemittanceModel

  predicate IsBlank(c: char) { c in {' ', '\t', '\n', '\r'} }

  predicate AllBlank(s: string) { forall i :: 0 <= i < |s| ==> IsBlank(s[i]) }

  /** `t` is `s` without the white space at its ends. */
  ghost predicate Stripped(s: string, t: string) {
    && (exists i, j :: 0 <= i <= j <= |s| && t == s[i..j] && AllBlank(s[..i]) && AllBlank(s[j..]))
    && (t != "" ==> !IsBlank(t[0]) && !IsBlank(t[|t| - 1]))
  }

  lemma {:induction false} LeftIs(s: string) returns (i: nat)
    ensures i <= |s| && TrimLeft(s) == s[i..] && AllBlank(s[..i]) && (TrimLeft(s) != "" ==> !IsBlank(TrimLeft(s)[0]))
  {
    if s != "" && Space(s[0]) {
      var k := LeftIs(s[1..]);
      i := k + 1;
      assert s[1..][k..] == s[i..];
      forall j | 0 <= j < i ensures IsBlank(s[..i][j]) { if j > 0 { assert s[1..][..k][j - 1] == s[j]; } }
    } else {
      i := 0;
    }
  }

  lemma {:induction false} RightIs(s: string) returns (j: nat)
    ensures j <= |s| && TrimRight(s) == s[..j] && AllBlank(s[j..])
    ensures TrimRight(s) != "" ==> !IsBlank(TrimRight(s)[|TrimRight(s)| - 1])
  {
    if s != "" && Space(s[|s| - 1]) {
      var init := s[..|s| - 1];
      j := RightIs(init);
      assert init[..j] == s[..j];
      forall k | 0 <= k < |s| - j ensures IsBlank(s[j..][k]) { if k < |init| - j { assert init[j..][k] == s[j..][k]; } }
    } else {
      j := |s|;
      assert s[..j] == s;
    }
  }

  lemma TrimStrips(s: string)
    ensures Stripped(s, Trim(s))
  {
    var i := LeftIs(s);
    var l := s[i..];
    var j := RightIs(l);
    assert l[..j] == s[i..i + j] && l[j..] == s[i + j..];
    assert Trim(s) == s[i..i + j] && AllBlank(s[..i]) && AllBlank(s[i + j..]);
  }

  /** A note becomes a row unless it has neither text nor amount; the row has the stripped text, or `(unnamed)` without
      one, and the amount. */
  lemma NoteIsKept(ns: seq<Note>, n: Note)
    ensures Kept([]) == []
    ensures var text := Trim(n.desc);
      && Stripped(n.desc, text)
      && Kept(ns + [n]) == Kept(ns) + if text == "" && n.amount == 0 then []
                                      else [Note(if text == "" then "(unnamed)" else text, n.amount)]
  {
    TrimStrips(n.desc);
    assert (ns + [n])[..|ns|] == ns;
  }
}
