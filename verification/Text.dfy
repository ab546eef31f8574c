// Strings as the components use them: Go's byte-wise `<`, "%d" numbers, names joined by a
// separator, and etcd key paths.
module Text {

  datatype Option<+T> = None | Some(value: T)

  // ---------- order ----------

  // Go compares strings byte by byte; a proper prefix comes first.
  predicate Less(a: string, b: string)
  {
    b != "" && (a == "" || a[0] < b[0] || (a[0] == b[0] && Less(a[1..], b[1..])))
  }

  lemma {:induction false} LessIsTotal(a: string, b: string)
    ensures a == b || Less(a, b) || Less(b, a)
  {
    if a != "" && b != "" && a[0] == b[0] {
      LessIsTotal(a[1..], b[1..]);
      assert a == [a[0]] + a[1..] && b == [b[0]] + b[1..];
    }
  }

  lemma {:induction false} LessIsTransitive(a: string, b: string, c: string)
    requires Less(a, b) && Less(b, c)
    ensures Less(a, c)
  {
    if a != "" && a[0] == b[0] == c[0] {
      LessIsTransitive(a[1..], b[1..], c[1..]);
    }
  }

  lemma {:induction false} LessIsIrreflexive(a: string)
    ensures !Less(a, a)
  {
    if a != "" {
      LessIsIrreflexive(a[1..]);
    }
  }

  lemma LessIsAsymmetric(a: string, b: string)
    requires Less(a, b)
    ensures !Less(b, a) && a != b
  {
    LessIsIrreflexive(a);
    if Less(b, a) {
      LessIsTransitive(a, b, a);
    }
  }

  // ---------- decimal numbers ----------

  predicate IsDigit(c: char) { '0' <= c <= '9' }

  function Digit(d: nat): (c: char)
    requires d < 10
    ensures IsDigit(c)
  {
    '0' + d as char
  }

  function DigitValue(c: char): nat
    requires IsDigit(c)
  {
    c as int - '0' as int
  }

  function Decimal(n: nat): (s: string)
    ensures s != "" && forall i :: 0 <= i < |s| ==> IsDigit(s[i])
  {
    if n < 10 then [Digit(n)] else Decimal(n / 10) + [Digit(n % 10)]
  }

  function NumberOf(s: string): nat
    requires forall i :: 0 <= i < |s| ==> IsDigit(s[i])
  {
    if s == "" then 0 else NumberOf(s[..|s| - 1]) * 10 + DigitValue(s[|s| - 1])
  }

  lemma {:induction false} NumberOfDecimal(n: nat)
    ensures NumberOf(Decimal(n)) == n
  {
    if n >= 10 {
      NumberOfDecimal(n / 10);
      assert Decimal(n)[..|Decimal(n)| - 1] == Decimal(n / 10);
    } else {
      assert Decimal(n)[..|Decimal(n)| - 1] == "";
    }
  }

  // ---------- numbered names ----------

  // fmt.Sprintf("%s-%d", prefix, n), with the separator left open so that dotted
  // addresses are numbered names too.
  function Numbered(prefix: string, separator: char, n: nat): string
  {
    prefix + [separator] + Decimal(n)
  }

  lemma DigitsFollowTheSeparator(prefix: string, separator: char, n: nat)
    ensures var s := Numbered(prefix, separator, n);
      |prefix| < |s| && s[|prefix|] == separator && forall i :: |prefix| < i < |s| ==> IsDigit(s[i])
  {
    var s := Numbered(prefix, separator, n);
    forall i | |prefix| < i < |s| ensures IsDigit(s[i]) {
      assert s[i] == Decimal(n)[i - |prefix| - 1];
    }
  }

  // A numbered name determines its prefix and its number, even when the prefix contains
  // separators (or digits) itself: the last separator is always the inserted one.
  lemma NumberedIsInjective(prefix: string, separator: char, n: nat, prefix': string, n': nat)
    requires !IsDigit(separator)
    requires Numbered(prefix, separator, n) == Numbered(prefix', separator, n')
    ensures prefix == prefix' && n == n'
  {
    var s, s' := Numbered(prefix, separator, n), Numbered(prefix', separator, n');
    assert |prefix| == |prefix'| by {
      DigitsFollowTheSeparator(prefix, separator, n);
      DigitsFollowTheSeparator(prefix', separator, n');
    }
    assert s[..|prefix|] == prefix && s'[..|prefix'|] == prefix';
    assert s[|prefix| + 1..] == Decimal(n) && s'[|prefix'| + 1..] == Decimal(n');
    NumberOfDecimal(n);
    NumberOfDecimal(n');
  }
}
