/** Case folding of nicknames and channel names (section 2.2 of RFC 1459). */
module CaseMap {

  datatype CaseMapping = Rfc1459 | Ascii

  function FoldByte(m: CaseMapping, c: char): char {
    if 'A' <= c <= 'Z' then (c as int + ('a' as int - 'A' as int)) as char
    else if m == Ascii then c
    else match c
      case '[' => '{'
      case ']' => '}'
      case '\\' => '|'
      case '^' => '~'
      case _ => c
  }

  /** The canonical comparison form of a name. */
  function Fold(m: CaseMapping, s: string): (r: string)
    ensures |r| == |s|
    ensures forall i :: 0 <= i < |s| ==> r[i] == FoldByte(m, s[i])
  {
    seq(|s|, i requires 0 <= i < |s| => FoldByte(m, s[i]))
  }

  /** Folding a folded name changes nothing, so a folded key can be looked up again. */
  lemma FoldIdempotent(m: CaseMapping, s: string)
    ensures Fold(m, Fold(m, s)) == Fold(m, s)
  {
    forall i | 0 <= i < |s| ensures Fold(m, Fold(m, s))[i] == Fold(m, s)[i] {
      assert FoldByte(m, FoldByte(m, s[i])) == FoldByte(m, s[i]);
    }
  }

  // ----- which names are the same -----

  /** The same place in the two alphabets, or the two forms of a bracket. */
  predicate Pair(m: CaseMapping, upper: char, lower: char) {
    || ('A' <= upper <= 'Z' && 'a' <= lower <= 'z' && upper as int - 'A' as int == lower as int - 'a' as int)
    || (m == Rfc1459 && (upper, lower) in {('[', '{'), (']', '}'), ('\\', '|'), ('^', '~')})
  }

  predicate SameLetter(m: CaseMapping, a: char, b: char) {
    a == b || Pair(m, a, b) || Pair(m, b, a)
  }

  /** The same name up to case, letter by letter. */
  predicate SameName(m: CaseMapping, a: string, b: string) {
    |a| == |b| && forall i :: 0 <= i < |a| ==> SameLetter(m, a[i], b[i])
  }

  /** A character with a lower-case form folds to it, and any other to itself. */
  lemma FoldsToLower(m: CaseMapping, c: char)
    ensures forall d :: Pair(m, c, d) ==> FoldByte(m, c) == d
    ensures Pair(m, c, FoldByte(m, c)) || (FoldByte(m, c) == c && forall d :: !Pair(m, c, d))
    ensures forall d :: !Pair(m, FoldByte(m, c), d)
  {
  }

  /** Two names fold to the same form if and only if they are the same up to case: the letters under both
      mappings, and under rfc1459 also the four pairs of brackets. */
  lemma FoldIsSameName(m: CaseMapping, a: string, b: string)
    ensures Fold(m, a) == Fold(m, b) <==> SameName(m, a, b)
  {
    forall c: char, d: char ensures FoldByte(m, c) == FoldByte(m, d) <==> SameLetter(m, c, d) {
      FoldsToLower(m, c);
      FoldsToLower(m, d);
    }
    if Fold(m, a) == Fold(m, b) {
      forall i | 0 <= i < |a| ensures SameLetter(m, a[i], b[i]) {
        assert Fold(m, a)[i] == Fold(m, b)[i];
      }
    }
  }

  /** The byte loop of CaseMapping.Fold. */
  method FoldLoop(m: CaseMapping, s: string) returns (r: string)
    ensures r == Fold(m, s)
  {
    if s == "" {
      return s;
    }
    var b := new char[|s|];
    var i := 0;
    while i < |s|
      invariant 0 <= i <= |s|
      invariant forall k :: 0 <= k < i ==> b[k] == FoldByte(m, s[k])
    {
      b[i] := FoldByte(m, s[i]);
      i := i + 1;
    }
    r := b[..];
  }

  /** CaseMapping.Equal, which compares without building the folded strings, agrees with comparing them. */
  method Equal(m: CaseMapping, a: string, b: string) returns (r: bool)
    ensures r <==> Fold(m, a) == Fold(m, b)
  {
    if |a| != |b| {
      return false;
    }
    var i := 0;
    while i < |a|
      invariant 0 <= i <= |a|
      invariant forall k :: 0 <= k < i ==> FoldByte(m, a[k]) == FoldByte(m, b[k])
    {
      if FoldByte(m, a[i]) != FoldByte(m, b[i]) {
        assert Fold(m, a)[i] != Fold(m, b)[i];
        return false;
      }
      i := i + 1;
    }
    r := true;
  }
}
