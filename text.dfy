/** The string helpers the repository uses: str.lower and str.capitalize on ASCII text. */
module Text {

  predicate IsUpper(c: char) { 'A' <= c <= 'Z' }

  predicate IsLower(c: char) { 'a' <= c <= 'z' }

  function LowerChar(c: char): (r: char)
    ensures !IsUpper(r)
    ensures IsUpper(c) ==> r as int == c as int + 32
    ensures !IsUpper(c) ==> r == c
  {
    if IsUpper(c) then (c as int + 32) as char else c
  }

  function UpperChar(c: char): (r: char)
    ensures !IsLower(r)
    ensures IsLower(c) ==> r as int == c as int - 32
    ensures !IsLower(c) ==> r == c
  {
    if IsLower(c) then (c as int - 32) as char else c
  }

  /** True when s holds no upper-case letter. */
  predicate NoUpper(s: string) {
    forall i :: 0 <= i < |s| ==> !IsUpper(s[i])
  }

  /** str.lower(): every letter lowered, everything else kept, length kept. */
  function Lower(s: string): (r: string)
    ensures |r| == |s|
    ensures NoUpper(r)
    ensures forall i :: 0 <= i < |s| ==> r[i] == LowerChar(s[i])
  {
    if s == [] then [] else [LowerChar(s[0])] + Lower(s[1..])
  }

  /** str.capitalize(): the first character upper-cased, the rest lowered. */
  function Capitalize(s: string): (r: string)
    ensures |r| == |s|
    ensures |s| > 0 ==> r[0] == UpperChar(s[0]) && r[1..] == Lower(s[1..])
  {
    if s == [] then [] else [UpperChar(s[0])] + Lower(s[1..])
  }

  lemma {:induction false} LowerIdempotent(s: string)
    ensures Lower(Lower(s)) == Lower(s)
  {
    var l := Lower(s);
    assert forall i :: 0 <= i < |l| ==> Lower(l)[i] == l[i];
  }

  /** Lower-casing forgets the capitalisation: form types compare equal either way. */
  lemma {:induction false} LowerOfCapitalize(s: string)
    ensures Lower(Capitalize(s)) == Lower(s)
  {
    if s != [] {
      var c := Capitalize(s);
      assert LowerChar(UpperChar(s[0])) == LowerChar(s[0]);
      LowerIdempotent(s[1..]);
      assert forall i :: 0 <= i < |s| ==> Lower(c)[i] == Lower(s)[i] by {
        forall i | 0 <= i < |s| ensures Lower(c)[i] == Lower(s)[i] {
          if i > 0 {
            assert c[i] == Lower(s[1..])[i - 1];
          }
        }
      }
    }
  }

  /** Capitalising forgets the case the text was typed in. */
  lemma {:induction false} CapitalizeOfLower(s: string)
    ensures Capitalize(Lower(s)) == Capitalize(s)
  {
    if s != [] {
      var l := Lower(s);
      assert UpperChar(LowerChar(s[0])) == UpperChar(s[0]);
      assert Lower(s[1..]) == l[1..] by {
        assert forall i :: 0 <= i < |s| - 1 ==> Lower(s[1..])[i] == l[1..][i];
      }
      LowerIdempotent(s[1..]);
    }
  }

  /** Text without capitals is its own lower-case form. */
  lemma {:induction false} LowerOfNoUpper(s: string)
    requires NoUpper(s)
    ensures Lower(s) == s
  {
    assert forall i :: 0 <= i < |s| ==> Lower(s)[i] == s[i];
  }

  /** The capitalised form of a word without capitals: its first letter raised. */
  lemma {:induction false} CapitalizeOfNoUpper(s: string)
    requires NoUpper(s) && s != []
    ensures Capitalize(s) == [UpperChar(s[0])] + s[1..]
  {
    LowerOfNoUpper(s[1..]);
  }

  /** Any casing of a word without capitals capitalises like the word itself. */
  lemma {:induction false} CapitalizeTypedWord(s: string, w: string)
    requires Lower(s) == w && NoUpper(w) && w != []
    ensures Capitalize(s) == [UpperChar(w[0])] + w[1..]
  {
    CapitalizeOfLower(s);
    CapitalizeOfNoUpper(w);
  }
}
