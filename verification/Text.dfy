/** Strings, lines and decimal numbers, as the modelled components use them. */
module Text {

  datatype Option<+T> = None | Some(value: T)

  /** The position of the first occurrence of `c` in `s`, or -1. */
  function IndexOf(s: string, c: char): (i: int)
    ensures -1 <= i < |s|
    ensures i == -1 <==> c !in s
    ensures 0 <= i ==> s[i] == c && c !in s[..i]
  {
    if s == "" then -1
    else if s[0] == c then 0
    else
      var i := IndexOf(s[1..], c);
      if i == -1 then -1
      else
        assert s[..i + 1] == [s[0]] + s[1..][..i];
        i + 1
  }

  /** An occurrence of `c` with none before it is the first one. */
  lemma IndexOfUnique(s: string, c: char, i: nat)
    requires i < |s| && s[i] == c && c !in s[..i]
    ensures IndexOf(s, c) == i
  {
  }

  lemma Assoc<T>(a: seq<T>, b: seq<T>, c: seq<T>)
    ensures a + (b + c) == a + b + c
  {
  }

  lemma Cut(s: string, i: nat)
    requires i <= |s|
    ensures s == s[..i] + s[i..]
  {
  }

  /** All chunks, one after another. */
  function Flatten(chunks: seq<string>): string {
    if chunks == [] then "" else chunks[0] + Flatten(chunks[1..])
  }

  // ---- ASCII letters ----

  predicate IsUpper(c: char) { 'A' <= c <= 'Z' }

  predicate IsLower(c: char) { 'a' <= c <= 'z' }

  function LowerChar(c: char): char {
    if IsUpper(c) then c - 'A' + 'a' else c
  }

  function UpperChar(c: char): char {
    if IsLower(c) then c - 'a' + 'A' else c
  }

  function Capital(i: nat): char
    requires i < 26
  {
    "ABCDEFGHIJKLMNOPQRSTUVWXYZ"[i]
  }

  function Small(i: nat): char
    requires i < 26
  {
    "abcdefghijklmnopqrstuvwxyz"[i]
  }

  lemma Letter(i: nat)
    requires i < 26
    ensures Capital(i) == 'A' + i as char && Small(i) == 'a' + i as char
  {
  }

  /** Capital and small letters stand for each other. */
  lemma LetterCase(i: nat)
    requires i < 26
    ensures LowerChar(Capital(i)) == Small(i) != Capital(i) && UpperChar(Small(i)) == Capital(i)
  {
    Letter(i);
    hide Capital, Small;
  }

  /** No character but a letter has another case. */
  lemma OnlyLettersChange(c: char)
    ensures LowerChar(c) != c ==> exists i :: 0 <= i < 26 && Capital(i) == c
    ensures UpperChar(c) != c ==> exists i :: 0 <= i < 26 && Small(i) == c
  {
    hide Capital, Small;
    if IsUpper(c) {
      Letter((c - 'A') as nat);
    }
    if IsLower(c) {
      Letter((c - 'a') as nat);
    }
  }

  function Lower(s: string): (r: string)
    ensures |r| == |s|
    ensures forall i :: 0 <= i < |s| ==> r[i] == LowerChar(s[i])
  {
    seq(|s|, i requires 0 <= i < |s| => LowerChar(s[i]))
  }

  // ---- Decimal numbers ----

  predicate IsDigit(c: char) { '0' <= c <= '9' }

  predicate AllDigits(s: string) { forall i :: 0 <= i < |s| ==> IsDigit(s[i]) }

  function DigitValue(c: char): nat
    requires IsDigit(c)
  {
    (c - '0') as nat
  }

  function DigitChar(d: nat): (c: char)
    requires d < 10
    ensures IsDigit(c) && DigitValue(c) == d
  {
    '0' + d as char
  }

  /** The number a string of digits denotes. */
  function DigitsValue(s: string): nat
    requires AllDigits(s)
  {
    if s == "" then 0
    else 10 * DigitsValue(s[..|s| - 1]) + DigitValue(s[|s| - 1])
  }

  /** `n` in decimal, without leading zeros. */
  function Decimal(n: nat): (s: string)
    ensures s != "" && AllDigits(s)
  {
    if n < 10 then [DigitChar(n)] else Decimal(n / 10) + [DigitChar(n % 10)]
  }

  lemma {:induction false} DecimalValue(n: nat)
    ensures DigitsValue(Decimal(n)) == n
  {
    if n < 10 {
      assert Decimal(n)[..0] == "";
    } else {
      DecimalValue(n / 10);
      assert Decimal(n)[..|Decimal(n)| - 1] == Decimal(n / 10);
    }
  }

  predicate IsSpace(c: char) { c == ' ' || '\t' <= c <= '\r' }

  /** `s` without the white space around it. */
  function Trim(s: string): string {
    if s == "" then ""
    else if IsSpace(s[0]) then Trim(s[1..])
    else if IsSpace(s[|s| - 1]) then Trim(s[..|s| - 1])
    else s
  }

  /** Decimal text to a number below `bound`: white space around it and one '+' are allowed,
      a sign '-', any other character, no digits at all, or a number too large are not. */
  function ParseUnsigned(s: string, bound: nat): Option<nat> {
    var t := Trim(s);
    var digits := if t != "" && t[0] == '+' then t[1..] else t;
    if digits == "" || !AllDigits(digits) || DigitsValue(digits) >= bound then None
    else Some(DigitsValue(digits))
  }

  /** Reading back a printed number gives the number, exactly when it is in range. */
  lemma ParseDecimal(n: nat, bound: nat)
    ensures ParseUnsigned(Decimal(n), bound) == if n < bound then Some(n) else None
  {
    var s := Decimal(n);
    assert IsDigit(s[0]) && IsDigit(s[|s| - 1]);
    assert Trim(s) == s;
    DecimalValue(n);
  }

  /** The ten digits. */
  lemma Digits(d: nat)
    requires d < 10
    ensures Decimal(d) == ["0123456789"[d]]
  {
  }

  predicate AllSpaces(s: string) { forall i :: 0 <= i < |s| ==> s[i] in " \t\n\U{b}\U{c}\r" }

  predicate AllZeros(s: string) { forall i :: 0 <= i < |s| ==> s[i] == '0' }

  /** White space, perhaps a '+', perhaps zeros, the number in decimal, and white space again. */
  ghost predicate Denotes(s: string, n: nat) {
    exists before, sign, zeros, after :: DenotesBy(s, n, before, sign, zeros, after)
  }

  predicate DenotesBy(s: string, n: nat, before: string, sign: string, zeros: string, after: string) {
    && AllSpaces(before) && (sign == "" || sign == "+") && AllZeros(zeros) && AllSpaces(after)
    && s == before + (sign + (zeros + Decimal(n))) + after
  }

  lemma Spaces(c: char)
    ensures IsSpace(c) <==> c in " \t\n\U{b}\U{c}\r"
  {
    var spaces := " \t\n\U{b}\U{c}\r";
    if '\t' <= c <= '\r' {
      assert spaces[1 + c as int - '\t' as int] == c;
    }
  }

  lemma SpaceBefore(c: char, before: string, core: string, after: string)
    requires IsSpace(c) && AllSpaces(before)
    ensures AllSpaces([c] + before) && [c] + (before + core + after) == [c] + before + core + after
  {
    Spaces(c);
  }

  lemma SpaceAfter(before: string, core: string, after: string, c: char)
    requires IsSpace(c) && AllSpaces(after)
    ensures AllSpaces(after + [c]) && before + core + after + [c] == before + core + (after + [c])
  {
    Spaces(c);
  }

  lemma {:induction false} TrimSpaces(s: string) returns (before: string, after: string)
    ensures AllSpaces(before) && AllSpaces(after) && s == before + Trim(s) + after
    ensures Trim(s) != "" ==> !IsSpace(Trim(s)[0]) && !IsSpace(Trim(s)[|Trim(s)| - 1])
    decreases |s|
  {
    TrimOnce(s);
    NoSpaces();
    hide *;
    before, after := "", "";
    assert "" + s + "" == s;
    if s != "" {
      var n := |s| - 1;
      if IsSpace(s[0]) {
        before, after := TrimSpaces(s[1..]);
        SpaceBefore(s[0], before, Trim(s[1..]), after);
        before := [s[0]] + before;
        assert s == [s[0]] + s[1..];
      } else if IsSpace(s[n]) {
        before, after := TrimSpaces(s[..n]);
        SpaceAfter(before, Trim(s[..n]), after, s[n]);
        after := after + [s[n]];
        assert s == s[..n] + [s[n]];
      }
    }
  }

  lemma TrimOnce(s: string)
    ensures Trim(s) == if s == "" then "" else if IsSpace(s[0]) then Trim(s[1..])
                       else if IsSpace(s[|s| - 1]) then Trim(s[..|s| - 1]) else s
  {
  }

  lemma NoSpaces()
    ensures AllSpaces("")
  {
  }

  lemma {:induction false} TrimAround(before: string, core: string, after: string)
    requires AllSpaces(before) && AllSpaces(after)
    requires core != "" && !IsSpace(core[0]) && !IsSpace(core[|core| - 1])
    ensures Trim(before + core + after) == core
    decreases |before| + |after|
  {
    var s := before + core + after;
    var n, m := |s| - 1, |after| - 1;
    if before != "" {
      Spaces(s[0]);
      assert s[1..] == before[1..] + core + after;
      TrimAround(before[1..], core, after);
    } else if after != "" {
      Spaces(s[n]);
      assert s[..n] == before + core + after[..m];
      TrimAround(before, core, after[..m]);
    } else {
      assert s == core;
    }
  }

  /** A string of digits is zeros and a number in decimal. */
  lemma {:induction false} DigitsForm(s: string) returns (zeros: string)
    requires s != "" && AllDigits(s)
    ensures AllZeros(zeros) && s == zeros + Decimal(DigitsValue(s))
    decreases |s|
  {
    var n := |s| - 1;
    assert s == s[..n] + [s[n]];
    if n == 0 {
      zeros := "";
      assert DigitsValue("") == 0;
    } else {
      zeros := DigitsForm(s[..n]);
      zeros := OneDigitMore(zeros, DigitsValue(s[..n]), s[n]);
    }
  }

  lemma OneDigitMore(zeros: string, n: nat, c: char) returns (more: string)
    requires AllZeros(zeros) && IsDigit(c)
    ensures AllZeros(more) && zeros + Decimal(n) + [c] == more + Decimal(10 * n + DigitValue(c))
  {
    var m := 10 * n + DigitValue(c);
    assert DigitChar(DigitValue(c)) == c;
    if n == 0 {
      more := zeros + "0";
      assert Decimal(0) == "0" && Decimal(m) == [c];
    } else {
      more := zeros;
      assert m / 10 == n && m % 10 == DigitValue(c);
      assert Decimal(m) == Decimal(n) + [c];
      Assoc(zeros, Decimal(n), [c]);
    }
  }

  lemma {:induction false} ZerosValue(zeros: string, n: nat)
    requires AllZeros(zeros)
    ensures AllDigits(zeros + Decimal(n)) && DigitsValue(zeros + Decimal(n)) == n
    decreases n
  {
    var s := zeros + Decimal(n);
    if n < 10 {
      assert s[..|s| - 1] == zeros;
      NoValue(zeros);
    } else {
      ZerosValue(zeros, n / 10);
      assert s[..|s| - 1] == zeros + Decimal(n / 10);
    }
  }

  lemma {:induction false} NoValue(zeros: string)
    requires AllZeros(zeros)
    ensures AllDigits(zeros) && DigitsValue(zeros) == 0
  {
    if zeros != "" {
      NoValue(zeros[..|zeros| - 1]);
    }
  }

  lemma DigitIsNoSpace(s: string, i: nat)
    requires i < |s| && (IsDigit(s[i]) || s[i] == '+')
    ensures !IsSpace(s[i])
  {
  }

  lemma ReadIsDenoted(s: string, bound: nat, n: nat)
    requires ParseUnsigned(s, bound) == Some(n)
    ensures Denotes(s, n)
  {
    hide Trim, Decimal, DigitsValue;
    var before, after := TrimSpaces(s);
    var t := Trim(s);
    var sign := if t[0] == '+' then "+" else "";
    var digits := t[|sign|..];
    assert t == sign + digits;
    var zeros := DigitsForm(digits);
    assert DenotesBy(s, n, before, sign, zeros, after);
  }

  /** Exactly the texts that denote a number in range are read, and as this number. */
  lemma ParsesIffDenotes(s: string, bound: nat, n: nat)
    ensures ParseUnsigned(s, bound) == Some(n) <==> n < bound && Denotes(s, n)
  {
    if ParseUnsigned(s, bound) == Some(n) {
      ReadIsDenoted(s, bound, n);
    }
    if n < bound && Denotes(s, n) {
      var before, sign, zeros, after :| DenotesBy(s, n, before, sign, zeros, after);
      DenotedIsRead(s, bound, n, before, sign, zeros, after);
    }
  }

  lemma DenotedIsRead(s: string, bound: nat, n: nat, before: string, sign: string, zeros: string, after: string)
    requires n < bound && DenotesBy(s, n, before, sign, zeros, after)
    ensures ParseUnsigned(s, bound) == Some(n)
  {
    var digits := zeros + Decimal(n);
    var core := sign + digits;
    ZerosValue(zeros, n);
    SignedCore(sign, digits);
    hide *;
    TrimAround(before, core, after);
    SignedIsRead(s, bound, n, sign, digits);
  }

  lemma SignedCore(sign: string, digits: string)
    requires (sign == "" || sign == "+") && digits != "" && AllDigits(digits)
    ensures var core := sign + digits; !IsSpace(core[0]) && !IsSpace(core[|core| - 1])
  {
    assert IsDigit(digits[0]) && IsDigit(digits[|digits| - 1]);
  }

  lemma SignedIsRead(s: string, bound: nat, n: nat, sign: string, digits: string)
    requires n < bound && (sign == "" || sign == "+") && digits != "" && AllDigits(digits) && DigitsValue(digits) == n
    requires Trim(s) == sign + digits
    ensures ParseUnsigned(s, bound) == Some(n)
  {
    var t := Trim(s);
    assert t[|sign|..] == digits;
    assert IsDigit(digits[0]);
    assert t[0] == if sign == "" then digits[0] else '+';
    hide Trim, DigitsValue;
  }

  // ---- Splitting ----

  /** The pieces of `s` between the separators; never an empty list. */
  function Split(s: string, sep: char): (parts: seq<string>)
    ensures parts != []
    ensures forall i :: 0 <= i < |parts| ==> sep !in parts[i]
    decreases |s|
  {
    var i := IndexOf(s, sep);
    if i == -1 then [s] else [s[..i]] + Split(s[i + 1..], sep)
  }

  function Join(parts: seq<string>, sep: char): string {
    if parts == [] then ""
    else if |parts| == 1 then parts[0]
    else parts[0] + [sep] + Join(parts[1..], sep)
  }

  lemma JoinCons(first: string, rest: seq<string>, sep: char)
    requires rest != []
    ensures Join([first] + rest, sep) == first + [sep] + Join(rest, sep)
  {
    assert ([first] + rest)[1..] == rest;
  }

  lemma {:induction false} JoinSplit(s: string, sep: char)
    ensures Join(Split(s, sep), sep) == s
    decreases |s|
  {
    var i := IndexOf(s, sep);
    hide Join, IndexOf;
    if i == -1 {
      JoinOne(s, sep);
    } else {
      JoinSplit(s[i + 1..], sep);
      JoinCons(s[..i], Split(s[i + 1..], sep), sep);
      hide Split;
      assert s == s[..i] + [sep] + s[i + 1..];
    }
  }

  lemma JoinOne(s: string, sep: char)
    ensures Join([s], sep) == s
  {
  }

  /** Splitting off a piece that ends at a separator. */
  lemma SplitPiece(piece: string, sep: char, rest: string)
    requires sep !in piece
    ensures Split(piece + ([sep] + rest), sep) == [piece] + Split(rest, sep)
  {
    var s := piece + ([sep] + rest);
    assert s[..|piece|] == piece && s[|piece| + 1..] == rest;
    IndexOfUnique(s, sep, |piece|);
  }

  lemma {:induction false} SplitJoin(parts: seq<string>, sep: char)
    requires parts != []
    requires forall i :: 0 <= i < |parts| ==> sep !in parts[i]
    ensures Split(Join(parts, sep), sep) == parts
  {
    if |parts| > 1 {
      var rest := Join(parts[1..], sep);
      SplitJoin(parts[1..], sep);
      hide Split;
      Assoc(parts[0], [sep], rest);
      SplitPiece(parts[0], sep, rest);
      assert parts == [parts[0]] + parts[1..];
    }
  }

  /** The pieces that are not empty. */
  function NonEmpty(parts: seq<string>): (r: seq<string>)
    ensures (forall i :: 0 <= i < |parts| ==> parts[i] != "") ==> r == parts
  {
    if parts == [] then []
    else
      var n := |parts| - 1;
      assert parts == parts[..n] + [parts[n]];
      if parts[n] == "" then NonEmpty(parts[..n]) else NonEmpty(parts[..n]) + [parts[n]]
  }

  lemma {:induction false} NonEmptyCons(first: string, rest: seq<string>)
    ensures NonEmpty([first] + rest) == (if first == "" then [] else [first]) + NonEmpty(rest)
  {
    var all := [first] + rest;
    if rest == [] {
      assert all[..0] == [];
    } else {
      var n := |rest| - 1;
      assert all[..n + 1] == [first] + rest[..n];
      NonEmptyCons(first, rest[..n]);
    }
  }
}
