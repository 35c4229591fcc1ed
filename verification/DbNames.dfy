/** Verb names: the patterns of verbcasecmp, and what str_hash makes of a name.  Neither tells upper case from
    lower. */
module DbNames {

  function Fold(c: char): char {
    if 'A' <= c <= 'Z' then (c as int + 32) as char else c
  }

  function FoldAll(s: string): string {
    if s == [] then [] else [Fold(s[0])] + FoldAll(s[1..])
  }

  /** mystrcasecmp: no difference. */
  predicate SameName(a: string, b: string) {
    FoldAll(a) == FoldAll(b)
  }

  datatype Star = NoStar | Inner | End

  /** One name of the pattern against the word: what is left of both, and the kind of star met last. */
  function Scan(v: string, w: string, star: Star): (string, string, Star)
    decreases |v|
  {
    if v != [] && v[0] == '*' then Scan(v[1..], w, if v[1..] == [] || v[1] == ' ' then End else Inner)
    else if v == [] || v[0] == ' ' || w == [] || Fold(w[0]) != Fold(v[0]) then (v, w, star)
    else Scan(v[1..], w[1..], star)
  }

  function SkipName(v: string): (r: string)
    ensures |r| <= |v|
  {
    if v == [] || v[0] == ' ' then v else SkipName(v[1..])
  }

  function SkipSpaces(v: string): (r: string)
    ensures |r| <= |v| && (v != [] && v[0] == ' ' ==> |r| < |v|)
  {
    if v != [] && v[0] == ' ' then SkipSpaces(v[1..]) else v
  }

  lemma {:induction false} ScanShrinks(v: string, w: string, star: Star)
    ensures |Scan(v, w, star).0| <= |v|
    decreases |v|
  {
    if v != [] && v[0] == '*' {
      ScanShrinks(v[1..], w, if v[1..] == [] || v[1] == ' ' then End else Inner);
    } else if !(v == [] || v[0] == ' ' || w == [] || Fold(w[0]) != Fold(v[0])) {
      ScanShrinks(v[1..], w[1..], star);
    }
  }

  lemma SkipShrinks(v: string)
    requires v != []
    ensures |SkipSpaces(SkipName(v))| < |v|
  {
  }

  /** verbcasecmp: one of the names in the pattern matches the word. */
  predicate VerbMatch(v: string, word: string)
    decreases |v|
  {
    if v == [] then false
    else
      ScanShrinks(v, word, NoStar);
      var (v1, w1, star) := Scan(v, word, NoStar);
      (if w1 == [] then star != NoStar || v1 == [] || v1[0] == ' ' else star == End)
      || (v1 != [] && (SkipShrinks(v1); VerbMatch(SkipSpaces(SkipName(v1)), word)))
  }

  lemma FoldParts(a: string)
    ensures |FoldAll(a)| == 0 <==> a == []
    ensures a != [] ==> FoldAll(a)[0] == Fold(a[0]) && FoldAll(a)[1..] == FoldAll(a[1..])
  {
  }

  lemma {:induction false} ScanFolds(v: string, a: string, b: string, star: Star)
    requires SameName(a, b)
    ensures var (v1, a1, s1), (v2, b2, s2) := Scan(v, a, star), Scan(v, b, star);
            v1 == v2 && s1 == s2 && SameName(a1, b2)
    decreases |v|
  {
    FoldParts(a);
    FoldParts(b);
    if v != [] && v[0] == '*' {
      ScanFolds(v[1..], a, b, if v[1..] == [] || v[1] == ' ' then End else Inner);
    } else if !(v == [] || v[0] == ' ' || a == [] || Fold(a[0]) != Fold(v[0])) {
      ScanFolds(v[1..], a[1..], b[1..], star);
    }
  }

  /** The pattern does not tell two spellings of a name apart. */
  lemma {:induction false} MatchFolds(v: string, a: string, b: string)
    requires SameName(a, b)
    ensures VerbMatch(v, a) == VerbMatch(v, b)
    decreases |v|
  {
    if v != [] {
      ScanFolds(v, a, b, NoStar);
      ScanShrinks(v, a, NoStar);
      var (v1, a1, s1) := Scan(v, a, NoStar);
      var (v2, b2, s2) := Scan(v, b, NoStar);
      FoldParts(a1);
      FoldParts(b2);
      if v1 != [] {
        SkipShrinks(v1);
        MatchFolds(SkipSpaces(SkipName(v1)), a, b);
      }
    }
  }

  /** str_hash, on 32 bits. */
  function HashFrom(ans: nat, s: string): nat
    decreases |s|
  {
    if s == [] then ans else HashFrom((ans * 8 + ans / 0x1000_0000 + Fold(s[0]) as nat) % 0x1_0000_0000, s[1..])
  }

  function StrHash(s: string): nat {
    HashFrom(0, s)
  }

  lemma {:induction false} HashFolds(ans: nat, a: string, b: string)
    requires SameName(a, b)
    ensures HashFrom(ans, a) == HashFrom(ans, b)
    decreases |a|
  {
    FoldParts(a);
    FoldParts(b);
    if a != [] {
      HashFolds((ans * 8 + ans / 0x1000_0000 + Fold(a[0]) as nat) % 0x1_0000_0000, a[1..], b[1..]);
    }
  }
}
