/** Spreadsheet column letters as numbers: a bijection that keeps the order of columns. */
module Columns {

  predicate IsLetter(c: char) { 'A' <= c <= 'Z' }

  ghost predicate IsName(s: string) {
    s != "" && forall i :: 0 <= i < |s| ==> IsLetter(s[i])
  }

  /** The letters a cell reference starts with. */
  function Letters(reference: string): string {
    if reference == "" || !IsLetter(reference[0]) then "" else [reference[0]] + Letters(reference[1..])
  }

  function Digit(c: char): nat
    requires IsLetter(c)
  {
    (c - 'A') as nat + 1
  }

  function Value(s: string): nat
    requires forall i :: 0 <= i < |s| ==> IsLetter(s[i])
  {
    if s == "" then 0 else Value(s[..|s| - 1]) * 26 + Digit(s[|s| - 1])
  }

  /** The column named by a string of letters, counted from zero. */
  function Column(name: string): int
    requires IsName(name)
  {
    Value(name) - 1
  }

  function Numeral(v: nat): string {
    if v == 0 then "" else Numeral((v - 1) / 26) + ['A' + ((v - 1) % 26) as char]
  }

  /** The name of a column, the inverse of reading it. */
  function Name(column: nat): string { Numeral(column + 1) }

  lemma {:induction false} NumeralValue(v: nat)
    ensures (forall i :: 0 <= i < |Numeral(v)| ==> IsLetter(Numeral(v)[i])) && Value(Numeral(v)) == v
    ensures Numeral(v) == "" <==> v == 0
  {
    if v != 0 {
      NumeralValue((v - 1) / 26);
      var before, c := Numeral((v - 1) / 26), 'A' + ((v - 1) % 26) as char;
      assert (before + [c])[..|before|] == before;
    }
  }

  lemma {:induction false} ValueNumeral(s: string)
    requires forall i :: 0 <= i < |s| ==> IsLetter(s[i])
    ensures Numeral(Value(s)) == s
  {
    if s != "" {
      var before, last := s[..|s| - 1], s[|s| - 1];
      ValueNumeral(before);
      LastDigit(Value(before), last);
      assert s == before + [last];
    }
  }

  lemma LastDigit(v: nat, c: char)
    requires IsLetter(c)
    ensures Numeral(v * 26 + Digit(c)) == Numeral(v) + [c]
  {
    var w := v * 26 + Digit(c);
    assert (w - 1) / 26 == v && (w - 1) % 26 == (c - 'A') as nat;
  }

  /** Every column has a name, and reading the name gives the column back. */
  lemma NameThenColumn(column: nat)
    ensures IsName(Name(column)) && Column(Name(column)) == column
  {
    NumeralValue(column + 1);
  }

  /** Every string of letters is the name of the column it denotes, so no two names share a column. */
  lemma ColumnThenName(name: string)
    requires IsName(name)
    ensures Column(name) >= 0 && Name(Column(name)) == name
  {
    ValueNumeral(name);
  }

  /** Columns from left to right: shorter names first, then alphabetically. */
  ghost predicate Before(s: string, t: string) {
    |s| < |t| || (|s| == |t| && exists i :: DiffersAt(s, t, i))
  }

  ghost predicate DiffersAt(s: string, t: string, i: int) {
    0 <= i < |s| && i < |t| && s[..i] == t[..i] && s[i] < t[i]
  }

  /** The number of names shorter than this length, and one. */
  function Lowest(length: nat): nat {
    if length == 0 then 0 else 26 * Lowest(length - 1) + 1
  }

  lemma {:induction false} ValueRange(s: string)
    requires forall i :: 0 <= i < |s| ==> IsLetter(s[i])
    ensures Lowest(|s|) <= Value(s) < Lowest(|s| + 1)
  {
    if s != "" {
      ValueRange(s[..|s| - 1]);
    }
  }

  lemma {:induction false} LowestGrows(m: nat, n: nat)
    requires m <= n
    ensures Lowest(m) <= Lowest(n)
  {
    if m < n {
      LowestGrows(m, n - 1);
    }
  }

  lemma {:induction false} AlphabeticalGrows(s: string, t: string, i: nat)
    requires |s| == |t| && (forall i :: 0 <= i < |s| ==> IsLetter(s[i]) && IsLetter(t[i])) && DiffersAt(s, t, i)
    ensures Value(s) < Value(t)
  {
    var n := |s| - 1;
    if i < n {
      assert s[..n][..i] == s[..i] && t[..n][..i] == t[..i];
      AlphabeticalGrows(s[..n], t[..n], i);
    }
  }

  lemma BeforeGrows(s: string, t: string)
    requires IsName(s) && IsName(t) && Before(s, t)
    ensures Column(s) < Column(t)
  {
    if |s| < |t| {
      ValueRange(s);
      ValueRange(t);
      LowestGrows(|s| + 1, |t|);
    } else {
      var i :| DiffersAt(s, t, i);
      AlphabeticalGrows(s, t, i);
    }
  }

  lemma {:induction false} SomewhereDiffers(s: string, t: string)
    requires |s| == |t| && s != t
    ensures Before(s, t) || Before(t, s)
  {
    var n := |s| - 1;
    assert s == s[..n] + [s[n]] && t == t[..n] + [t[n]];
    if s[..n] == t[..n] {
      assert DiffersAt(s, t, n) || DiffersAt(t, s, n);
    } else {
      SomewhereDiffers(s[..n], t[..n]);
      if i :| DiffersAt(s[..n], t[..n], i) {
        assert s[..n][..i] == s[..i] && t[..n][..i] == t[..i];
        assert DiffersAt(s, t, i);
      } else {
        var i :| DiffersAt(t[..n], s[..n], i);
        assert s[..n][..i] == s[..i] && t[..n][..i] == t[..i];
        assert DiffersAt(t, s, i);
      }
    }
  }

  /** A column is left of another exactly when its name comes before the other's. */
  lemma SameOrder(s: string, t: string)
    requires IsName(s) && IsName(t)
    ensures Before(s, t) <==> Column(s) < Column(t)
  {
    if Before(s, t) {
      BeforeGrows(s, t);
    } else if s != t {
      if |s| == |t| {
        SomewhereDiffers(s, t);
      }
      BeforeGrows(t, s);
    }
  }

  lemma {:induction false} LettersAre(reference: string)
    ensures forall i :: 0 <= i < |Letters(reference)| ==> IsLetter(Letters(reference)[i])
    ensures Letters(reference) <= reference
    ensures |Letters(reference)| < |reference| ==> !IsLetter(reference[|Letters(reference)|])
  {
    if reference != "" && IsLetter(reference[0]) {
      LettersAre(reference[1..]);
    }
  }

  lemma {:induction false} LettersOf(name: string, rest: string)
    requires (forall i :: 0 <= i < |name| ==> IsLetter(name[i])) && (rest != "" ==> !IsLetter(rest[0]))
    ensures Letters(name + rest) == name
  {
    if name == "" {
      assert name + rest == rest;
    } else {
      assert (name + rest)[1..] == name[1..] + rest;
      LettersOf(name[1..], rest);
    }
  }

  /** A reference made of a column's name and a row reads back as that column. */
  lemma ReferenceReadsBack(column: nat, row: string)
    requires row != "" ==> !IsLetter(row[0])
    ensures Letters(Name(column) + row) == Name(column) && IsName(Letters(Name(column) + row))
    ensures Column(Letters(Name(column) + row)) == column
  {
    NameThenColumn(column);
    LettersOf(Name(column), row);
  }

  /** A reference that does not start with a letter counts as column A. */
  method ColumnNumber(reference: string) returns (column: int)
    ensures column >= 0
    ensures Letters(reference) == "" ==> column == 0
    ensures Letters(reference) != "" ==> IsName(Letters(reference)) && column == Column(Letters(reference))
  {
    LettersAre(reference);
    var letters := if Letters(reference) != "" then Letters(reference) else "A";
    var value := 0;
    for i := 0 to |letters|
      invariant value == Value(letters[..i]) && (i > 0 ==> value > 0)
    {
      assert letters[..i + 1][..i] == letters[..i];
      value := value * 26 + (letters[i] - 'A') as int + 1;
    }
    assert letters[..|letters|] == letters;
    return value - 1;
  }
}
