/**
 * Move-list entries as both play boards store them: a White move is
 * written "<number>. <SAN>", a Black move is its bare SAN, and the
 * displays strip a leading "<digits>." and the white space after it
 * (the regular expression `^\d+\.\s*`) to get the SAN back.
 */
module Notation {
  import opened ChessTypes

  predicate IsDigit(c: char)
  {
    '0' <= c <= '9'
  }

  predicate AllDigits(s: string)
  {
    forall i :: 0 <= i < |s| ==> IsDigit(s[i])
  }

  /** The characters JavaScript's `\s` class matches. */
  predicate IsSpace(c: char)
  {
    var n := c as int;
    n == 0x09 || n == 0x0A || n == 0x0B || n == 0x0C || n == 0x0D || n == 0x20
    || n == 0xA0 || n == 0x1680 || (0x2000 <= n <= 0x200A) || n == 0x2028
    || n == 0x2029 || n == 0x202F || n == 0x205F || n == 0x3000 || n == 0xFEFF
  }

  function DigitChar(d: nat): char
    requires d < 10
  {
    (48 + d) as char
  }

  function DigitValue(c: char): int
  {
    c as int - 48
  }

  /** A non-negative integer in decimal, as JavaScript converts a number to
      a string: at least one digit, and no leading zero unless it is 0. */
  function DecimalString(n: nat): (s: string)
    ensures |s| > 0 && AllDigits(s)
    ensures s[0] == '0' <==> n == 0
  {
    if n < 10 then [DigitChar(n)] else DecimalString(n / 10) + [DigitChar(n % 10)]
  }

  /** The number a string of decimal digits denotes. */
  function DigitsValue(s: string): int
  {
    if s == [] then 0
    else 10 * DigitsValue(s[..|s| - 1]) + DigitValue(s[|s| - 1])
  }

  /** Reading back a written number gives the number. */
  lemma {:induction false} DecimalRoundTrip(n: nat)
    ensures DigitsValue(DecimalString(n)) == n
  {
    if n >= 10 {
      DecimalRoundTrip(n / 10);
      var s := DecimalString(n);
      assert s[..|s| - 1] == DecimalString(n / 10);
    }
  }

  /** The length of the run of digits that starts `s`. */
  function LeadingDigits(s: string): (d: nat)
    ensures d <= |s|
  {
    if s == [] || !IsDigit(s[0]) then 0 else 1 + LeadingDigits(s[1..])
  }

  /** The run counted is all digits and is followed by a non-digit or the end. */
  lemma {:induction false} LeadingDigitsShape(s: string)
    ensures forall i :: 0 <= i < LeadingDigits(s) ==> IsDigit(s[i])
    ensures LeadingDigits(s) < |s| ==> !IsDigit(s[LeadingDigits(s)])
  {
    if s != [] && IsDigit(s[0]) {
      LeadingDigitsShape(s[1..]);
      forall i | 0 < i < LeadingDigits(s) ensures IsDigit(s[i]) {
        assert s[i] == s[1..][i - 1];
      }
    }
  }

  /** `s` with its leading white space removed. */
  function SkipSpaces(s: string): (r: string)
    ensures |r| <= |s|
  {
    if s != [] && IsSpace(s[0]) then SkipSpaces(s[1..]) else s
  }

  /** What `SkipSpaces` removes is white space, and only that: the result is
      the suffix of `s` that starts at its first non-space character. */
  lemma {:induction false} SkipSpacesShape(s: string)
    ensures var r := SkipSpaces(s);
      && r == s[|s| - |r|..]
      && (forall i :: 0 <= i < |s| - |r| ==> IsSpace(s[i]))
      && (r != [] ==> !IsSpace(r[0]))
  {
    if s != [] && IsSpace(s[0]) {
      SkipSpacesShape(s[1..]);
      var r := SkipSpaces(s);
      forall i | 0 < i < |s| - |r| ensures IsSpace(s[i]) {
        assert s[i] == s[1..][i - 1];
      }
      assert s[1..][|s| - 1 - |r|..] == s[|s| - |r|..];
    }
  }

  /** `^\d+\.` matches at the start of `s`: one or more digits, then a dot. */
  predicate HasNumberPrefix(s: string)
  {
    var d := LeadingDigits(s);
    0 < d < |s| && s[d] == '.'
  }

  /** `s` with the pattern `^\d+\.\s*` replaced by nothing. The regular
      expression can only match the whole leading digit run (a dot is not a
      digit), so the match, when there is one, is that run, the dot and all
      white space after it. */
  function StripNumber(s: string): string
  {
    if HasNumberPrefix(s) then SkipSpaces(s[LeadingDigits(s) + 1..]) else s
  }

  /** What the stripping removes: the result is a suffix of `s`; it is
      shorter exactly when the pattern matches, and then the removed part
      is one or more digits, one dot and white space, and what remains
      does not start with white space. */
  lemma StripNumberShape(s: string)
    ensures var r := StripNumber(s);
      && |r| <= |s| && r == s[|s| - |r|..]
      && (HasNumberPrefix(s) <==> |r| < |s|)
      && (HasNumberPrefix(s) ==>
            var d := LeadingDigits(s);
            && |r| < |s| - d
            && (forall i :: 0 <= i < d ==> IsDigit(s[i]))
            && s[d] == '.'
            && (forall i :: d < i < |s| - |r| ==> IsSpace(s[i]))
            && (r != [] ==> !IsSpace(r[0])))
  {
    if HasNumberPrefix(s) {
      LeadingDigitsShape(s);
      StrippedShape(s, LeadingDigits(s));
    } else {
      assert StripNumber(s) == s == s[0..];
    }
  }

  /** The matching case: what is left after the dot and the white space. */
  lemma StrippedShape(s: string, d: nat)
    requires HasNumberPrefix(s) && d == LeadingDigits(s)
    ensures var r := StripNumber(s);
      && r == SkipSpaces(s[d + 1..])
      && |r| < |s| - d && r == s[|s| - |r|..]
      && (forall i :: d < i < |s| - |r| ==> IsSpace(s[i]))
      && (r != [] ==> !IsSpace(r[0]))
  {
    var t := s[d + 1..];
    var r := SkipSpaces(t);
    SkipSpacesShape(t);
    assert |t| - |r| + d + 1 == |s| - |r|;
    assert s[|s| - |r|..] == t[|t| - |r|..];
    forall i | d < i < |s| - |r| ensures IsSpace(s[i]) {
      assert s[i] == t[i - d - 1];
    }
  }

  /** The move number a numbered entry carries, if it has one. */
  function PrefixNumber(s: string): Option<int>
  {
    if HasNumberPrefix(s) then Some(DigitsValue(s[..LeadingDigits(s)])) else None
  }

  /** The shape of Standard Algebraic Notation as the engine writes it: it
      starts with a piece letter, a file letter, or 'O' for castling. */
  predicate SanShape(san: string)
  {
    |san| > 0 && san[0] in "KQRBNOabcdefgh"
  }

  /** `Math.ceil(n / 2) + 1`: the number given to a White move when the
      list already holds `n` entries. */
  function MoveNumber(n: nat): nat
  {
    (n + 1) / 2 + 1
  }

  /** The entry `addMoveToList` stores for move `m` when the list already
      holds `n` entries. */
  function MoveNotation(n: nat, m: Move): string
  {
    if m.color == White then DecimalString(MoveNumber(n)) + ". " + m.san else m.san
  }

  /** The entry the forfeit handler stores when the list holds `n` entries
      and `mover` is the side to move: `${Math.ceil(n / 2)}. ${side} forfeits`. */
  function ForfeitEntry(n: nat, mover: Color): string
  {
    DecimalString((n + 1) / 2) + ". " + ColorName(mover) + " forfeits"
  }

  /** A digit run followed by a non-digit is counted exactly. */
  lemma {:induction false} LeadingDigitsOfConcat(digits: string, rest: string)
    requires AllDigits(digits)
    requires rest == [] || !IsDigit(rest[0])
    ensures LeadingDigits(digits + rest) == |digits|
  {
    if digits != [] {
      assert (digits + rest)[1..] == digits[1..] + rest;
      LeadingDigitsOfConcat(digits[1..], rest);
    } else {
      assert digits + rest == rest;
    }
  }

  /** Stripping "<k>. " off a text that starts with neither a digit nor
      white space gives the text back, and the number read is `k`. */
  lemma StripNumbered(k: nat, text: string)
    requires text != [] && !IsDigit(text[0]) && !IsSpace(text[0])
    ensures StripNumber(DecimalString(k) + ". " + text) == text
    ensures PrefixNumber(DecimalString(k) + ". " + text) == Some(k)
  {
    var ds := DecimalString(k);
    var s := ds + ". " + text;
    assert s == ds + (". " + text);
    LeadingDigitsOfConcat(ds, ". " + text);
    assert s[|ds|] == '.';
    assert s[|ds| + 1..] == " " + text;
    assert SkipSpaces(" " + text) == SkipSpaces(text) by {
      assert (" " + text)[1..] == text;
    }
    assert s[..|ds|] == ds;
    DecimalRoundTrip(k);
  }

  /** Round trip of a move-list entry: stripping the number from the entry
      `addMoveToList` stores gives the move's SAN back; a White entry
      carries the number ceil(n/2)+1 and a Black entry none. */
  lemma NotationRoundTrip(n: nat, m: Move)
    requires SanShape(m.san)
    ensures StripNumber(MoveNotation(n, m)) == m.san
    ensures PrefixNumber(MoveNotation(n, m)) ==
      if m.color == White then Some(MoveNumber(n)) else None
  {
    SanStart(m.san);
    if m.color == White {
      StripNumbered(MoveNumber(n), m.san);
    } else {
      assert LeadingDigits(m.san) == 0;
    }
  }

  /** SAN starts with neither a digit nor white space. */
  lemma SanStart(san: string)
    requires SanShape(san)
    ensures !IsDigit(san[0]) && !IsSpace(san[0])
  {
  }

  /** The list `addMoveToList` builds from the moves `ms`, played in order
      on an empty list. */
  function BuildList(ms: seq<Move>): (l: seq<string>)
    ensures |l| == |ms|
    ensures forall i {:trigger l[i]} :: 0 <= i < |ms| ==> l[i] == MoveNotation(i, ms[i])
  {
    if ms == [] then [] else BuildList(ms[..|ms| - 1]) + [MoveNotation(|ms| - 1, ms[|ms| - 1])]
  }
}
