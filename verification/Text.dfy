/** The text primitives the messages are built from: splitting at a separator, decimal numbers. */
module Text {
  import opened Names

  /** boost::split at one separator, keeping empty pieces; the result is never empty. */
  function Split(s: string, c: char): (r: seq<string>)
    ensures r != []
  {
    if s == "" then [""]
    else
      var r := Split(s[1..], c);
      if s[0] == c then [""] + r else [[s[0]] + r[0]] + r[1..]
  }

  function Join(xs: seq<string>, c: char): string {
    if xs == [] then "" else if |xs| == 1 then xs[0] else xs[0] + [c] + Join(xs[1..], c)
  }

  /** None of the characters of cs occurs in s. */
  predicate Free(s: string, cs: string) {
    forall i :: 0 <= i < |s| ==> s[i] !in cs
  }

  lemma {:induction false} SplitFree(s: string, c: char)
    requires Free(s, [c])
    ensures Split(s, c) == [s]
  {
    if s != "" {
      assert s[0] in [c] <==> s[0] == c;
      SplitFree(s[1..], c);
      assert [s[0]] + s[1..] == s;
    }
  }

  lemma {:induction false} SplitCons(a: string, b: string, c: char)
    requires Free(a, [c])
    ensures Split(a + [c] + b, c) == [a] + Split(b, c)
  {
    var s := a + [c] + b;
    if a == "" {
      assert s[1..] == b;
    } else {
      assert a[0] in [c] <==> a[0] == c;
      SplitCons(a[1..], b, c);
      assert s[1..] == a[1..] + [c] + b;
      assert [a[0]] + a[1..] == a;
    }
  }

  ghost predicate AllFree(xs: seq<string>, cs: string) {
    forall i :: 0 <= i < |xs| ==> Free(xs[i], cs)
  }

  /** Splitting undoes joining when no piece holds the separator. */
  lemma {:induction false} SplitJoin(xs: seq<string>, c: char)
    requires xs != [] && AllFree(xs, [c])
    ensures Split(Join(xs, c), c) == xs
  {
    if |xs| == 1 {
      SplitFree(xs[0], c);
    } else {
      var rest := xs[1..];
      assert forall i :: 0 <= i < |rest| ==> rest[i] == xs[i + 1];
      SplitJoin(rest, c);
      SplitCons(xs[0], Join(rest, c), c);
      assert [xs[0]] + rest == xs;
    }
  }

  /** Joining undoes splitting, for every string: splitting loses nothing. */
  lemma {:induction false} JoinSplit(s: string, c: char)
    ensures Join(Split(s, c), c) == s
    ensures AllFree(Split(s, c), [c])
  {
    if s != "" {
      JoinSplit(s[1..], c);
      var r := Split(s[1..], c);
      assert [s[0]] + s[1..] == s;
      if s[0] == c {
        assert ([""] + r)[1..] == r;
      } else {
        var t := [[s[0]] + r[0]] + r[1..];
        assert t[1..] == r[1..];
        assert Join(t, c) == [s[0]] + Join(r, c);
        forall i | 0 <= i < |t| ensures Free(t[i], [c]) {
          if i > 0 { assert t[i] == r[i]; }
        }
      }
    }
  }

  lemma {:induction false} JoinFree(xs: seq<string>, c: char, cs: string)
    requires AllFree(xs, cs) && c !in cs
    ensures Free(Join(xs, c), cs)
  {
    if |xs| > 1 { JoinFree(xs[1..], c, cs); }
  }

  lemma FreeConcat(a: string, b: string, cs: string)
    requires Free(a, cs) && Free(b, cs)
    ensures Free(a + b, cs)
  {
  }

  lemma FreeLess(s: string, cs: string, ds: string)
    requires Free(s, cs) && forall c :: c in ds ==> c in cs
    ensures Free(s, ds)
  {
  }

  // ---- Paths: a slash in front of every piece ----

  function SlashText(ps: seq<string>): string {
    if ps == [] then "" else ['/'] + ps[0] + SlashText(ps[1..])
  }

  /** The slash in front of the first piece makes the first part of the split empty. */
  lemma {:induction false} SlashSplit(ps: seq<string>)
    requires AllFree(ps, "/")
    ensures Split(SlashText(ps), '/') == [""] + ps
  {
    hide Split;
    if ps == [] {
      SplitFree("", '/');
    } else {
      var rest := ps[1..];
      assert forall i :: 0 <= i < |rest| ==> rest[i] == ps[i + 1];
      SlashSplit(rest);
      PieceThenRest(ps[0], SlashText(rest), rest);
      SplitCons("", ps[0] + SlashText(rest), '/');
      assert "" + ['/'] + (ps[0] + SlashText(rest)) == SlashText(ps);
      assert [ps[0]] + rest == ps;
    }
  }

  lemma PieceThenRest(piece: string, rest: string, ps: seq<string>)
    requires Free(piece, "/") && Split(rest, '/') == [""] + ps
    requires rest == "" || rest[0] == '/'
    ensures Split(piece + rest, '/') == [piece] + ps
  {
    hide Split;
    if rest == "" {
      SplitFree("", '/');
      assert piece + rest == piece && ps == ([""] + ps)[1..] == [];
      SplitFree(piece, '/');
    } else {
      var tail := rest[1..];
      SplitCons(piece, tail, '/');
      SplitCons("", tail, '/');
      assert rest == "" + ['/'] + tail;
      assert piece + ['/'] + tail == piece + rest;
      assert Split(tail, '/') == ([""] + ps)[1..] == ps;
    }
  }

  lemma {:induction false} SlashFree(ps: seq<string>, cs: string)
    requires AllFree(ps, cs) && '/' !in cs
    ensures Free(SlashText(ps), cs)
  {
    if ps != [] { SlashFree(ps[1..], cs); }
  }

  lemma {:induction false} SlashAppend(ps: seq<string>, qs: seq<string>)
    ensures SlashText(ps + qs) == SlashText(ps) + SlashText(qs)
  {
    if ps == [] {
      assert ps + qs == qs;
    } else {
      SlashAppend(ps[1..], qs);
      assert (ps + qs)[1..] == ps[1..] + qs;
    }
  }

  lemma SlashCons(p: string, ps: seq<string>)
    ensures SlashText([p] + ps) == ['/'] + p + SlashText(ps)
    ensures SlashText([]) == ""
  {
    assert ([p] + ps)[1..] == ps;
  }

  /** The name in a URI: one generic component per piece behind a slash. */
  function ParseName(s: string): Name {
    GenericName(Split(s, '/')[1..])
  }

  function GenericName(ps: seq<string>): Name {
    if ps == [] then [] else [Generic(ps[0])] + GenericName(ps[1..])
  }

  lemma {:induction false} GenericNameAt(ps: seq<string>)
    ensures |GenericName(ps)| == |ps| && forall i :: 0 <= i < |ps| ==> GenericName(ps)[i] == Generic(ps[i])
  {
    if ps != [] { GenericNameAt(ps[1..]); }
  }

  lemma PathParses(ps: seq<string>)
    requires AllFree(ps, "/")
    ensures ParseName(SlashText(ps)) == GenericName(ps)
  {
    SlashSplit(ps);
    assert ([""] + ps)[1..] == ps;
  }

  // ---- Decimal numbers ----

  const DIGITS := "0123456789"

  function Digits(n: nat): (s: string) {
    if n < 10 then [DIGITS[n]] else Digits(n / 10) + [DIGITS[n % 10]]
  }

  predicate IsDigit(c: char) { '0' <= c <= '9' }

  function DigitValue(c: char): nat
    requires IsDigit(c)
  {
    c as int - '0' as int
  }

  predicate IsSpace(c: char) { c == ' ' || c == '\t' || c == '\n' || c == '\r' || c == '\U{000B}' || c == '\U{000C}' }

  /** The value of the longest digit prefix, after `acc` read so far. */
  function ReadDigits(s: string, acc: nat): nat {
    if s == "" || !IsDigit(s[0]) then acc else ReadDigits(s[1..], 10 * acc + DigitValue(s[0]))
  }

  const INT_MAX: int := 0x7FFF_FFFF

  /** std::stoi: leading white space, a sign, the longest digit prefix; it throws when there is no
      digit or the value is no int. */
  function Stoi(s: string): Option<int> {
    if s != "" && IsSpace(s[0]) then Stoi(s[1..])
    else
      var negative := s != "" && s[0] == '-';
      var digits := if s != "" && (s[0] == '-' || s[0] == '+') then s[1..] else s;
      if digits == "" || !IsDigit(digits[0]) then None
      else
        var value: int := ReadDigits(digits, 0);
        if negative then (if value <= INT_MAX + 1 then Some(-value) else None)
        else if value <= INT_MAX then Some(value) else None
  }

  lemma {:induction false} DigitsAreDigits(n: nat)
    ensures Digits(n) != "" && forall i :: 0 <= i < |Digits(n)| ==> IsDigit(Digits(n)[i])
  {
    if n >= 10 { DigitsAreDigits(n / 10); }
  }

  lemma {:induction false} ReadDigitsAppend(s: string, c: char, acc: nat)
    requires (forall i :: 0 <= i < |s| ==> IsDigit(s[i])) && IsDigit(c)
    ensures ReadDigits(s + [c], acc) == 10 * ReadDigits(s, acc) + DigitValue(c)
  {
    if s == "" {
      assert (s + [c])[1..] == "";
    } else {
      ReadDigitsAppend(s[1..], c, 10 * acc + DigitValue(s[0]));
      assert (s + [c])[1..] == s[1..] + [c];
    }
  }

  lemma {:induction false} ReadDigitsOfDigits(n: nat)
    ensures ReadDigits(Digits(n), 0) == n
  {
    if n < 10 {
      assert Digits(n)[1..] == "";
    } else {
      ReadDigitsOfDigits(n / 10);
      DigitsAreDigits(n / 10);
      ReadDigitsAppend(Digits(n / 10), DIGITS[n % 10], 0);
    }
  }

  /** A printed number is read back exactly when it is an int; otherwise stoi throws. */
  lemma StoiOfDigits(n: nat)
    ensures Stoi(Digits(n)) == if n <= INT_MAX then Some(n) else None
  {
    DigitsAreDigits(n);
    ReadDigitsOfDigits(n);
  }

  lemma DigitsFree(n: nat, cs: string)
    requires forall c :: c in cs ==> !IsDigit(c)
    ensures Free(Digits(n), cs)
  {
    DigitsAreDigits(n);
  }

  lemma {:induction false} DigitsInjective(m: nat, n: nat)
    ensures Digits(m) == Digits(n) ==> m == n
  {
    ReadDigitsOfDigits(m);
    ReadDigitsOfDigits(n);
  }

  lemma {:induction false} ReadDigitsStops(s: string, rest: string, acc: nat)
    requires (forall i :: 0 <= i < |s| ==> IsDigit(s[i])) && (rest == "" || !IsDigit(rest[0]))
    ensures ReadDigits(s + rest, acc) == ReadDigits(s, acc)
  {
    if s == "" {
      assert s + rest == rest;
    } else {
      assert (s + rest)[1..] == s[1..] + rest;
      ReadDigitsStops(s[1..], rest, 10 * acc + DigitValue(s[0]));
    }
  }

  /** What follows the digits is ignored, a sign is obeyed, and the range is that of a 32-bit int. */
  lemma StoiReads(n: nat, rest: string)
    requires rest == "" || !IsDigit(rest[0])
    ensures Stoi(Digits(n) + rest) == if n < 0x8000_0000 then Some(n) else None
    ensures Stoi("+" + (Digits(n) + rest)) == if n < 0x8000_0000 then Some(n) else None
    ensures Stoi("-" + (Digits(n) + rest)) == if n <= 0x8000_0000 then Some(-(n as int)) else None
  {
    DigitsAreDigits(n);
    ReadDigitsOfDigits(n);
    ReadDigitsStops(Digits(n), rest, 0);
    var t := Digits(n) + rest;
    assert t[0] == Digits(n)[0] && IsDigit(t[0]);
    assert ("+" + t)[1..] == t && ("-" + t)[1..] == t;
  }

  /** White space in front is skipped; without a digit there, possibly behind a sign, it throws. */
  lemma StoiSkipsAndThrows(c: char, rest: string)
    ensures Stoi("") == None && Stoi("-") == None && Stoi("+") == None
    ensures c in " \t\n\r" ==> Stoi([c] + rest) == Stoi(rest)
    ensures !IsDigit(c) && !IsSpace(c) && c !in "+-" ==> Stoi([c] + rest) == None
    ensures !IsDigit(c) ==> Stoi("-" + ([c] + rest)) == None && Stoi("+" + ([c] + rest)) == None
  {
    assert ([c] + rest)[1..] == rest;
    assert ("-" + ([c] + rest))[1..] == [c] + rest && ("+" + ([c] + rest))[1..] == [c] + rest;
  }
}
