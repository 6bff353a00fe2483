/** The manual pocket definition `center:x,y,z*size:x,y,z`, matched the way
    `re.match` matches its pattern: at the start of the string, with any text
    allowed after the match. */
module PocketPattern {
  import opened Wrappers
  import opened Text

  /** The pattern as a sequence of literal texts and numbers `-?\d+(\.\d+)?`. */
  datatype Token = Literal(text: string) | Number

  const ManualPocket: seq<Token> :=
    [Literal("center:"), Number, Literal(","), Number, Literal(","), Number,
     Literal("*size:"), Number, Literal(","), Number, Literal(","), Number]

  /** Length of the run of digits at the start of `s`. */
  function DigitRun(s: string): (k: nat)
    ensures k <= |s|
    ensures k > 0 ==> IsDigit(s[0])
  {
    if |s| > 0 && IsDigit(s[0]) then 1 + DigitRun(s[1..]) else 0
  }

  /** Length of the optional minus sign at the start of `s`. */
  function SignLen(s: string): nat { if |s| > 0 && s[0] == '-' then 1 else 0 }

  /** Where the digits before any fraction end. */
  function WholeEnd(s: string): (k: nat)
    ensures SignLen(s) <= k <= |s|
  {
    SignLen(s) + DigitRun(s[SignLen(s)..])
  }

  /** Whether a `.` and at least one digit follow the whole part. */
  predicate HasFraction(s: string)
  {
    WholeEnd(s) < |s| && s[WholeEnd(s)] == '.' && DigitRun(s[WholeEnd(s) + 1..]) > 0
  }

  function NumberEnd(s: string): (e: nat)
    ensures WholeEnd(s) <= e <= |s|
  {
    if HasFraction(s) then WholeEnd(s) + 1 + DigitRun(s[WholeEnd(s) + 1..]) else WholeEnd(s)
  }

  /** Length of the number `-?\d+(\.\d+)?` at the start of `s`, if there is one.
      The greedy reading is the only one: a digit or a `.` can never start what
      follows a number in the pattern. */
  function NumberLen(s: string): (r: Option<nat>)
    ensures r.Some? ==> 0 < r.value <= |s|
  {
    if WholeEnd(s) == SignLen(s) then None else Some(NumberEnd(s))
  }

  /** Whether the tokens match at the start of `s`. */
  predicate MatchFrom(s: string, pattern: seq<Token>)
    decreases |pattern|
  {
    if pattern == [] then true
    else match pattern[0]
      case Literal(t) => StartsWith(s, t) && MatchFrom(s[|t|..], pattern[1..])
      case Number => NumberLen(s).Some? && MatchFrom(s[NumberLen(s).value..], pattern[1..])
  }

  /** `re.match(pattern, s)` succeeds. */
  predicate Matches(s: string) { MatchFrom(s, ManualPocket) }

  // ------------------------------------------------------------ numerals

  /** A number written as the pattern allows: optional minus, digits, optional fraction. */
  datatype Numeral = Numeral(negative: bool, whole: string, fraction: string)

  predicate WellFormed(n: Numeral) { IsDigits(n.whole) && (n.fraction == [] || IsDigits(n.fraction)) }

  function SignText(n: Numeral): string { if n.negative then "-" else "" }

  function FractionText(n: Numeral): string { if n.fraction == [] then "" else "." + n.fraction }

  function NumeralText(n: Numeral): string { SignText(n) + n.whole + FractionText(n) }

  /** Text that cannot continue a number: nothing, or a character that is neither a digit nor `.`. */
  predicate Stops(u: string) { u == [] || (!IsDigit(u[0]) && u[0] != '.') }

  /** A pattern in which every number is followed by nothing or by a literal that stops it. */
  predicate Separated(pattern: seq<Token>)
    decreases |pattern|
  {
    |pattern| <= 1 ||
    ((pattern[0] == Number ==> pattern[1].Literal? && Stops(pattern[1].text) && pattern[1].text != []) &&
     Separated(pattern[1..]))
  }

  function NumberCount(pattern: seq<Token>): nat
  {
    if pattern == [] then 0 else (if pattern[0] == Number then 1 else 0) + NumberCount(pattern[1..])
  }

  /** The text the pattern describes once every number is given. */
  function Fill(pattern: seq<Token>, numbers: seq<Numeral>): string
    decreases |pattern|
  {
    if pattern == [] then ""
    else match pattern[0]
      case Literal(t) => t + Fill(pattern[1..], numbers)
      case Number =>
        if numbers == [] then Fill(pattern[1..], numbers)
        else NumeralText(numbers[0]) + Fill(pattern[1..], numbers[1..])
  }

  lemma {:induction false} DigitRunOfDigits(d: string, u: string)
    requires d == [] || IsDigits(d)
    requires u == [] || !IsDigit(u[0])
    ensures DigitRun(d + u) == |d|
    decreases |d|
  {
    if d != [] {
      assert (d + u)[1..] == d[1..] + u;
      DigitRunOfDigits(d[1..], u);
    } else {
      assert d + u == u;
    }
  }

  /** The digits a run covers. */
  lemma {:induction false} DigitRunDigits(s: string)
    ensures DigitRun(s) == 0 || IsDigits(s[..DigitRun(s)])
  {
    if DigitRun(s) > 0 {
      DigitRunDigits(s[1..]);
      assert s[..DigitRun(s)] == [s[0]] + s[1..][..DigitRun(s[1..])];
    }
  }

  lemma Drop(a: string, b: string)
    ensures (a + b)[|a|..] == b
  {
  }

  /** The whole part of a numeral ends where its digits end. */
  lemma WholeEndOfNumeral(n: Numeral, rest: string)
    requires WellFormed(n) && (rest == [] || !IsDigit(rest[0]))
    ensures WholeEnd(SignText(n) + (n.whole + rest)) == |SignText(n)| + |n.whole|
    ensures SignLen(SignText(n) + (n.whole + rest)) == |SignText(n)|
  {
    var s := SignText(n) + (n.whole + rest);
    assert SignLen(s) == |SignText(n)|;
    assert s[|SignText(n)|..] == n.whole + rest;
    DigitRunOfDigits(n.whole, rest);
  }

  /** A well-formed numeral followed by text that stops it is read back whole. */
  lemma NumberLenOfNumeral(n: Numeral, u: string)
    requires WellFormed(n) && Stops(u)
    ensures NumberLen(NumeralText(n) + u) == Some(|NumeralText(n)|)
  {
    var s := NumeralText(n) + u;
    var k := |SignText(n)| + |n.whole|;
    NumeralWholeEnd(n, u, s, k);
    NumeralEnd(n, u, s, k);
    NumberLenIs(s, k, |NumeralText(n)|);
  }

  lemma NumberLenIs(s: string, k: nat, e: nat)
    requires WholeEnd(s) == k && SignLen(s) < k && NumberEnd(s) == e
    ensures NumberLen(s) == Some(e)
  {
  }

  /** The whole part of a numeral ends after its sign and digits. */
  lemma NumeralWholeEnd(n: Numeral, u: string, s: string, k: nat)
    requires WellFormed(n) && Stops(u)
    requires s == NumeralText(n) + u && k == |SignText(n)| + |n.whole|
    ensures WholeEnd(s) == k && SignLen(s) < k && s[k..] == FractionText(n) + u
  {
    var rest := FractionText(n) + u;
    Regroup(SignText(n), n.whole, FractionText(n), u);
    WholeEndOfNumeral(n, rest);
    DropTwo(SignText(n), n.whole, rest);
  }

  /** A numeral ends after its fraction, if it has one. */
  lemma NumeralEnd(n: Numeral, u: string, s: string, k: nat)
    requires WellFormed(n) && Stops(u)
    requires WholeEnd(s) == k <= |s| && s[k..] == FractionText(n) + u
    ensures NumberEnd(s) == k + |FractionText(n)|
  {
    if n.fraction != [] {
      FractionOfNumeral(s, k, n.fraction, u);
    } else {
      NoFraction(s, k, u);
    }
  }

  lemma Regroup(a: string, b: string, c: string, d: string)
    ensures ((a + b) + c) + d == a + (b + (c + d))
  {
  }

  lemma NoFraction(s: string, k: nat, u: string)
    requires WholeEnd(s) == k <= |s| && s[k..] == u && Stops(u)
    ensures !HasFraction(s) && NumberEnd(s) == k
  {
    if u != [] {
      assert s[k] == u[0];
    }
  }

  lemma DropTwo(a: string, b: string, c: string)
    ensures (a + (b + c))[|a| + |b|..] == c
  {
  }

  lemma FractionOfNumeral(s: string, k: nat, fraction: string, u: string)
    requires IsDigits(fraction) && Stops(u) && WholeEnd(s) == k <= |s|
    requires s[k..] == "." + fraction + u
    ensures HasFraction(s) && NumberEnd(s) == k + 1 + |fraction|
  {
    assert s[k + 1..] == fraction + u;
    DigitRunOfDigits(fraction, u);
  }

  /** Every filled-in pattern matches, whatever text follows it. */
  lemma {:induction false} FillMatches(pattern: seq<Token>, numbers: seq<Numeral>, u: string)
    requires Separated(pattern) && |numbers| == NumberCount(pattern)
    requires forall i :: 0 <= i < |numbers| ==> WellFormed(numbers[i])
    requires Stops(u) || (pattern != [] && pattern[|pattern| - 1].Literal?)
    ensures MatchFrom(Fill(pattern, numbers) + u, pattern)
    decreases |pattern|
  {
    if pattern != [] {
      match pattern[0]
      case Literal(t) =>
        var rest := Fill(pattern[1..], numbers);
        assert Fill(pattern, numbers) + u == t + (rest + u);
        Drop(t, rest + u);
        if |pattern| > 1 {
          FillMatches(pattern[1..], numbers, u);
        }
      case Number =>
        if |pattern| > 1 {
          FillMatches(pattern[1..], numbers[1..], u);
          FillNumberThenLiteral(pattern, numbers, u);
        } else {
          FillLastNumber(pattern, numbers, u);
        }
    }
  }

  /** A number that ends the pattern, followed by text that stops it. */
  lemma FillLastNumber(pattern: seq<Token>, numbers: seq<Numeral>, u: string)
    requires |pattern| == 1 && pattern[0] == Number && numbers != []
    requires WellFormed(numbers[0]) && Stops(u)
    ensures MatchFrom(Fill(pattern, numbers) + u, pattern)
  {
    var n := numbers[0];
    assert Fill(pattern, numbers) + u == NumeralText(n) + u;
    NumberLenOfNumeral(n, u);
    Drop(NumeralText(n), u);
  }

  /** A number followed by a literal that stops it and by a matching rest. */
  lemma FillNumberThenLiteral(pattern: seq<Token>, numbers: seq<Numeral>, u: string)
    requires Separated(pattern) && |pattern| > 1 && pattern[0] == Number && numbers != []
    requires WellFormed(numbers[0])
    requires MatchFrom(Fill(pattern[1..], numbers[1..]) + u, pattern[1..])
    ensures MatchFrom(Fill(pattern, numbers) + u, pattern)
  {
    var n := numbers[0];
    var rest := Fill(pattern[1..], numbers[1..]);
    assert Fill(pattern, numbers) + u == NumeralText(n) + (rest + u);
    assert rest == pattern[1].text + Fill(pattern[2..], numbers[1..]);
    NumberLenOfNumeral(n, rest + u);
    Drop(NumeralText(n), rest + u);
  }

  /** The number at the start of a string, as a numeral. */
  function ReadNumeral(s: string): Numeral
    requires NumberLen(s).Some?
  {
    Numeral(SignLen(s) == 1, s[SignLen(s)..WholeEnd(s)],
            if HasFraction(s) then s[WholeEnd(s) + 1..NumberEnd(s)] else "")
  }

  lemma Slices(s: string, a: nat, b: nat, c: nat)
    requires a <= b <= c <= |s|
    ensures s[a..c] == s[a..b] + s[b..c]
  {
  }

  /** Reading a number back gives the text it was read from. */
  lemma ReadNumeralText(s: string)
    requires NumberLen(s).Some?
    ensures WellFormed(ReadNumeral(s)) && NumeralText(ReadNumeral(s)) == s[..NumberLen(s).value]
  {
    var n := ReadNumeral(s);
    var j, k, e := SignLen(s), WholeEnd(s), NumberEnd(s);
    ReadWhole(s);
    if HasFraction(s) {
      ReadFraction(s);
      Slices(s, 0, k, e);
    } else {
      assert FractionText(n) == [];
    }
  }

  lemma ReadWhole(s: string)
    requires NumberLen(s).Some?
    ensures IsDigits(ReadNumeral(s).whole)
    ensures SignText(ReadNumeral(s)) + ReadNumeral(s).whole == s[..WholeEnd(s)]
  {
    var j, k := SignLen(s), WholeEnd(s);
    DigitRunDigits(s[j..]);
    assert s[j..][..DigitRun(s[j..])] == s[j..k];
    assert SignText(ReadNumeral(s)) == s[..j];
    Slices(s, 0, j, k);
  }

  lemma ReadFraction(s: string)
    requires NumberLen(s).Some? && HasFraction(s)
    ensures IsDigits(ReadNumeral(s).fraction)
    ensures FractionText(ReadNumeral(s)) == s[WholeEnd(s)..NumberEnd(s)]
  {
    var k, e := WholeEnd(s), NumberEnd(s);
    DigitRunDigits(s[k + 1..]);
    assert s[k + 1..][..DigitRun(s[k + 1..])] == s[k + 1..e];
    Slices(s, k, k + 1, e);
  }

  /** A run of digits that ends inside `x` ends at the same place in `x + t`. */
  lemma {:induction false} DigitRunAppend(x: string, t: string)
    requires DigitRun(x) < |x|
    ensures DigitRun(x + t) == DigitRun(x)
  {
    if DigitRun(x) > 0 {
      assert (x + t)[1..] == x[1..] + t;
      DigitRunAppend(x[1..], t);
    }
  }

  /** The whole part of a number that ends inside `s` ends at the same place in `s + t`. */
  lemma WholeEndAppend(s: string, t: string)
    requires WholeEnd(s) < |s|
    ensures WholeEnd(s + t) == WholeEnd(s) && SignLen(s + t) == SignLen(s)
  {
    var j := SignLen(s);
    assert SignLen(s + t) == j;
    assert (s + t)[j..] == s[j..] + t;
    DigitRunAppend(s[j..], t);
  }

  /** A number followed by text that stops it is unchanged by appending more text. */
  lemma NumberKept(s: string, t: string)
    requires NumberLen(s).Some? && NumberLen(s).value < |s| && Stops(s[NumberLen(s).value..])
    ensures NumberLen(s + t) == NumberLen(s)
  {
    var k := WholeEnd(s);
    WholeEndAppend(s, t);
    if HasFraction(s) {
      FractionAppend(s, t, k);
    } else {
      assert s[NumberLen(s).value..][0] == s[k];
    }
  }

  lemma FractionAppend(s: string, t: string, k: nat)
    requires k == WholeEnd(s) == WholeEnd(s + t) && HasFraction(s) && NumberEnd(s) < |s|
    ensures HasFraction(s + t) && NumberEnd(s + t) == NumberEnd(s)
  {
    assert (s + t)[k + 1..] == s[k + 1..] + t;
    DigitRunAppend(s[k + 1..], t);
  }

  /** The numbers a matching string holds, in pattern order. */
  function Numbers(s: string, pattern: seq<Token>): (ns: seq<Numeral>)
    requires MatchFrom(s, pattern)
    ensures |ns| == NumberCount(pattern)
    decreases |pattern|
  {
    if pattern == [] then []
    else match pattern[0]
      case Literal(t) => Numbers(s[|t|..], pattern[1..])
      case Number => [ReadNumeral(s)] + Numbers(s[NumberLen(s).value..], pattern[1..])
  }

  /** What follows the match. */
  function Trailer(s: string, pattern: seq<Token>): string
    requires MatchFrom(s, pattern)
    decreases |pattern|
  {
    if pattern == [] then s
    else match pattern[0]
      case Literal(t) => Trailer(s[|t|..], pattern[1..])
      case Number => Trailer(s[NumberLen(s).value..], pattern[1..])
  }

  /** Every matching string is a filled-in pattern followed by other text. */
  lemma {:induction false} MatchIsFill(s: string, pattern: seq<Token>)
    requires MatchFrom(s, pattern)
    ensures forall i :: 0 <= i < |Numbers(s, pattern)| ==> WellFormed(Numbers(s, pattern)[i])
    ensures s == Fill(pattern, Numbers(s, pattern)) + Trailer(s, pattern)
    decreases |pattern|
  {
    if pattern != [] {
      match pattern[0]
      case Literal(t) =>
        MatchIsFill(s[|t|..], pattern[1..]);
        assert s == t + s[|t|..];
      case Number =>
        var k := NumberLen(s).value;
        MatchIsFill(s[k..], pattern[1..]);
        NumberThenFill(s, pattern);
    }
  }

  lemma NumberThenFill(s: string, pattern: seq<Token>)
    requires MatchFrom(s, pattern) && pattern != [] && pattern[0] == Number
    requires var k := NumberLen(s).value;
      (forall i :: 0 <= i < |Numbers(s[k..], pattern[1..])| ==> WellFormed(Numbers(s[k..], pattern[1..])[i])) &&
      s[k..] == Fill(pattern[1..], Numbers(s[k..], pattern[1..])) + Trailer(s[k..], pattern[1..])
    ensures forall i :: 0 <= i < |Numbers(s, pattern)| ==> WellFormed(Numbers(s, pattern)[i])
    ensures s == Fill(pattern, Numbers(s, pattern)) + Trailer(s, pattern)
  {
    var k := NumberLen(s).value;
    var n := ReadNumeral(s);
    var rest := Numbers(s[k..], pattern[1..]);
    var fill := Fill(pattern[1..], rest);
    var trailer := Trailer(s[k..], pattern[1..]);
    ReadNumeralText(s);
    assert Numbers(s, pattern) == [n] + rest;
    assert Fill(pattern, [n] + rest) == NumeralText(n) + fill by {
      assert ([n] + rest)[0] == n && ([n] + rest)[1..] == rest;
    }
    assert Trailer(s, pattern) == trailer;
    Glue(s, k, NumeralText(n), fill, trailer);
  }

  lemma Glue(s: string, k: nat, a: string, b: string, c: string)
    requires k <= |s| && s[..k] == a && s[k..] == b + c
    ensures s == (a + b) + c
  {
    assert s == s[..k] + s[k..];
  }

  /** `re.match` is a prefix match: text after a matching definition does not
      change the verdict (a number at the end of the match may only grow). */
  lemma {:induction false} MatchExtends(s: string, t: string, pattern: seq<Token>)
    requires Separated(pattern) && MatchFrom(s, pattern)
    ensures MatchFrom(s + t, pattern)
    decreases |pattern|
  {
    if pattern != [] {
      match pattern[0]
      case Literal(x) =>
        assert (s + t)[|x|..] == s[|x|..] + t;
        MatchExtends(s[|x|..], t, pattern[1..]);
      case Number =>
        var k := NumberLen(s).value;
        if |pattern| == 1 {
          NumberLenGrows(s, t);
        } else {
          var x := pattern[1].text;
          assert StartsWith(s[k..], x);
          assert k < |s| && Stops(s[k..]);
          NumberKept(s, t);
          assert (s + t)[k..] == s[k..] + t;
          MatchExtends(s[k..], t, pattern[1..]);
        }
    }
  }

  /** A number at the start of `s` is still a number at the start of `s + t`. */
  lemma NumberLenGrows(s: string, t: string)
    requires NumberLen(s).Some?
    ensures NumberLen(s + t).Some?
  {
    var j := SignLen(s);
    assert SignLen(s + t) == j;
    assert (s + t)[j..] == s[j..] + t;
    assert IsDigit(s[j..][0]);
  }

  /** An empty definition is refused. */
  lemma EmptyNotMatched()
    ensures !Matches("")
  {
    assert !StartsWith("", "center:");
  }

  /** The pattern of the manual pocket keeps its numbers apart. */
  lemma ManualPocketSeparated()
    ensures Separated(ManualPocket)
  {
    var p := ManualPocket;
    assert Separated(p[11..]);
    assert Separated(p[10..]) by { assert p[10..][1..] == p[11..]; }
    assert Separated(p[9..]) by { assert p[9..][1..] == p[10..]; }
    assert Separated(p[8..]) by { assert p[8..][1..] == p[9..]; }
    assert Separated(p[7..]) by { assert p[7..][1..] == p[8..]; }
    assert Separated(p[6..]) by { assert p[6..][1..] == p[7..]; }
    assert Separated(p[5..]) by { assert p[5..][1..] == p[6..]; }
    assert Separated(p[4..]) by { assert p[4..][1..] == p[5..]; }
    assert Separated(p[3..]) by { assert p[3..][1..] == p[4..]; }
    assert Separated(p[2..]) by { assert p[2..][1..] == p[3..]; }
    assert Separated(p[1..]) by { assert p[1..][1..] == p[2..]; }
  }

  lemma ManualPocketCount()
    ensures NumberCount(ManualPocket) == 6
  {
  }

  /** Both directions of the manual pocket check: a string is accepted exactly
      when it starts with `center:` and `*size:` triples of numerals. */
  lemma ManualPocketAccepts(ns: seq<Numeral>, trailer: string)
    requires |ns| == 6 && forall i :: 0 <= i < 6 ==> WellFormed(ns[i])
    ensures Matches(Fill(ManualPocket, ns) + trailer)
  {
    ManualPocketSeparated();
    ManualPocketCount();
    FilledMatches(ManualPocket, ns, trailer);
  }

  /** A filled-in separated pattern matches, whatever text follows it. */
  lemma FilledMatches(pattern: seq<Token>, ns: seq<Numeral>, trailer: string)
    requires Separated(pattern) && |ns| == NumberCount(pattern)
    requires forall i :: 0 <= i < |ns| ==> WellFormed(ns[i])
    ensures MatchFrom(Fill(pattern, ns) + trailer, pattern)
  {
    FillMatches(pattern, ns, []);
    assert Fill(pattern, ns) + [] == Fill(pattern, ns);
    MatchExtends(Fill(pattern, ns), trailer, pattern);
  }

  lemma ManualPocketOnlyAccepts(s: string)
    requires Matches(s)
    ensures exists ns: seq<Numeral>, trailer: string ::
      |ns| == 6 && (forall i :: 0 <= i < 6 ==> WellFormed(ns[i])) && s == Fill(ManualPocket, ns) + trailer
  {
    ManualPocketCount();
    MatchIsFill(s, ManualPocket);
    var ns := Numbers(s, ManualPocket);
    assert s == Fill(ManualPocket, ns) + Trailer(s, ManualPocket);
  }
}
