/** Generated identifiers and the file names built from them. */
module Ids {
  import opened Wrappers
  import opened Text

  const RUN_PREFIX := "run_"

  /** Ten to the width. */
  function Pow10(width: nat): nat {
    if width == 0 then 1 else 10 * Pow10(width - 1)
  }

  function Digit(d: nat): char
    requires d < 10
  {
    (d + '0' as int) as char
  }

  predicate IsDigit(c: char) {
    '0' <= c <= '9'
  }

  predicate AllDigits(s: string) {
    forall i :: 0 <= i < |s| ==> IsDigit(s[i])
  }

  /** Decimal, padded with zeros on the left to a least width. */
  function Padded(n: nat, width: nat): string
    decreases n
  {
    if n < 10 then Zeros(width) + [Digit(n)]
    else Padded(n / 10, if width == 0 then 0 else width - 1) + [Digit(n % 10)]
  }

  function Zeros(width: nat): string {
    if width <= 1 then "" else "0" + Zeros(width - 1)
  }

  /** What a string of digits denotes. */
  function Parse(s: string): int {
    if s == "" then 0 else 10 * Parse(s[..|s| - 1]) + (s[|s| - 1] as int - '0' as int)
  }

  lemma {:induction false} ZerosFacts(width: nat)
    ensures |Zeros(width)| == if width == 0 then 0 else width - 1
    ensures AllDigits(Zeros(width)) && Parse(Zeros(width)) == 0
  {
    if width > 1 {
      ZerosFacts(width - 1);
      ParseLeadingZero(Zeros(width - 1));
    }
  }

  lemma {:induction false} ParseLeadingZero(s: string)
    ensures Parse("0" + s) == Parse(s)
  {
    var z := "0" + s;
    if s != "" {
      ParseLeadingZero(s[..|s| - 1]);
      assert z[..|z| - 1] == "0" + s[..|s| - 1];
    }
  }

  /** The padded form is made of digits and denotes its number. */
  lemma {:induction false} ParsePadded(n: nat, width: nat)
    ensures Parse(Padded(n, width)) == n && AllDigits(Padded(n, width))
    decreases n
  {
    if n < 10 {
      ZerosFacts(width);
      assert Padded(n, width)[..|Zeros(width)|] == Zeros(width);
    } else {
      var w := if width == 0 then 0 else width - 1;
      ParsePadded(n / 10, w);
      assert Padded(n, width)[..|Padded(n / 10, w)|] == Padded(n / 10, w);
    }
  }

  /** The padded form has exactly the asked width when the number is below the power of ten. */
  lemma {:induction false} PaddedWidth(n: nat, width: nat)
    requires width > 0
    ensures |Padded(n, width)| >= width
    ensures |Padded(n, width)| == width <==> n < Pow10(width)
    decreases n
  {
    ZerosFacts(width);
    PowPositive(width - 1);
    if n >= 10 {
      if width == 1 {
        PaddedNotEmpty(n / 10, 0);
      } else {
        PaddedWidth(n / 10, width - 1);
      }
    }
  }

  lemma {:induction false} PowPositive(width: nat)
    ensures Pow10(width) >= 1
  {
    if width > 0 { PowPositive(width - 1); }
  }

  lemma PaddedNotEmpty(n: nat, width: nat)
    ensures |Padded(n, width)| >= 1
  {
  }

  /** Two digit strings of one length compare as strings the way their numbers do. */
  lemma {:induction false} OrderOfDigits(a: string, b: string)
    requires |a| == |b| && AllDigits(a) && AllDigits(b)
    ensures Less(a, b) <==> Parse(a) < Parse(b)
    decreases |a|
  {
    if a != "" {
      var n := |a| - 1;
      var x, y, c, d := a[..n], b[..n], a[n], b[n];
      OrderOfDigits(x, y);
      OrderOfDigits(y, x);
      LessTotal(x, y);
      assert a == x + [c] && b == y + [d];
      LessSnoc(x, y, c, d);
    }
  }

  lemma {:induction false} LessSnoc(x: string, y: string, c: char, d: char)
    requires |x| == |y|
    ensures Less(x + [c], y + [d]) <==> Less(x, y) || (x == y && c < d)
  {
    var a, b := x + [c], y + [d];
    if x != "" {
      LessSnoc(x[1..], y[1..], c, d);
      assert a[1..] == x[1..] + [c] && b[1..] == y[1..] + [d];
      assert x == [x[0]] + x[1..] && y == [y[0]] + y[1..];
    }
  }

  // ------------------------------------------------------- identifiers

  function NewId(prefix: string, seq_: nat): string {
    prefix + Padded(seq_, 12)
  }

  /** The validator's test: the prefix, then exactly twelve digits. */
  predicate IsGenerated(value: string, prefix: string) {
    prefix <= value && |value| == |prefix| + 12 && AllDigits(value[|prefix|..])
  }

  const ID_LIMIT: nat := 1_000_000_000_000

  lemma LimitIsPower()
    ensures Pow10(12) == ID_LIMIT
  {
    assert Pow10(3) == 1000;
    assert Pow10(6) == 1000000;
    assert Pow10(9) == 1000000000;
  }

  /** Exactly the sequence numbers below ten to the twelfth give an identifier that validates. */
  lemma GeneratedExactly(prefix: string, n: nat)
    ensures IsGenerated(NewId(prefix, n), prefix) <==> n < ID_LIMIT
  {
    LimitIsPower();
    PaddedWidth(n, 12);
    ParsePadded(n, 12);
    assert NewId(prefix, n)[|prefix|..] == Padded(n, 12);
  }

  lemma NewIdInjective(prefix: string, m: nat, n: nat)
    requires NewId(prefix, m) == NewId(prefix, n)
    ensures m == n
  {
    ParsePadded(m, 12);
    ParsePadded(n, 12);
    assert NewId(prefix, m)[|prefix|..] == Padded(m, 12);
    assert NewId(prefix, n)[|prefix|..] == Padded(n, 12);
  }

  lemma {:induction false} LessWithPrefix(prefix: string, a: string, b: string)
    ensures Less(prefix + a, prefix + b) <==> Less(a, b)
  {
    if prefix == "" {
      assert prefix + a == a && prefix + b == b;
    } else {
      LessWithPrefix(prefix[1..], a, b);
      assert (prefix + a)[1..] == prefix[1..] + a;
      assert (prefix + b)[1..] == prefix[1..] + b;
    }
  }

  /** Below the limit, identifiers sort as strings in the order of their sequence numbers. */
  lemma NewIdOrder(prefix: string, m: nat, n: nat)
    requires m < ID_LIMIT && n < ID_LIMIT
    ensures Less(NewId(prefix, m), NewId(prefix, n)) <==> m < n
  {
    LimitIsPower();
    PaddedWidth(m, 12);
    PaddedWidth(n, 12);
    ParsePadded(m, 12);
    ParsePadded(n, 12);
    OrderOfDigits(Padded(m, 12), Padded(n, 12));
    LessWithPrefix(prefix, Padded(m, 12), Padded(n, 12));
  }

  // -------------------------------------------------- receipt file names

  function ReceiptFileName(seq_: nat, messageId: string): string {
    Padded(seq_, 10) + "-" + messageId + ".yaml"
  }

  /** filepath.Ext: from the last dot of the last path element, or nothing. */
  function Ext(name: string): string {
    if name == "" then ""
    else
      var last := name[|name| - 1];
      if last == '.' then "." else if last == '/' then ""
      else
        var e := Ext(name[..|name| - 1]);
        if e == "" then "" else e + [last]
  }

  function TrimSuffix(s: string, suffix: string): string {
    if |suffix| <= |s| && s[|s| - |suffix|..] == suffix then s[..|s| - |suffix|] else s
  }

  /** strings.Index of one character. */
  function IndexOf(s: string, c: char): Option<nat> {
    if s == "" then None
    else if s[0] == c then Some(0)
    else match IndexOf(s[1..], c)
      case None => None
      case Some(i) => Some(i + 1)
  }

  function ExtractMessageId(name: string): string {
    var stem := TrimSuffix(name, Ext(name));
    match IndexOf(stem, '-')
    case Some(i) => if i + 1 < |stem| then stem[i + 1..] else stem
    case None => stem
  }

  lemma ExtOfYaml(stem: string)
    ensures Ext(stem + ".yaml") == ".yaml"
  {
    var n := stem + ".yaml";
    assert n[..|n| - 1] == stem + ".yam";
    assert (stem + ".yam")[..|n| - 2] == stem + ".ya";
    assert (stem + ".ya")[..|n| - 3] == stem + ".y";
    assert (stem + ".y")[..|n| - 4] == stem + ".";
    assert Ext(stem + ".") == ".";
    assert Ext(stem + ".y") == ".y";
    assert Ext(stem + ".ya") == ".ya";
    assert Ext(stem + ".yam") == ".yam";
  }

  lemma {:induction false} IndexOfFirst(front: string, c: char, rest: string)
    requires c !in front
    ensures IndexOf(front + [c] + rest, c) == Some(|front|)
  {
    var s := front + [c] + rest;
    if front != "" {
      IndexOfFirst(front[1..], c, rest);
      assert s[1..] == front[1..] + [c] + rest;
    }
  }

  /** A message identifier survives the trip through its receipt's file name, unless it is empty. */
  lemma ReceiptFileNameRoundTrip(seq_: nat, messageId: string)
    ensures ExtractMessageId(ReceiptFileName(seq_, messageId)) == messageId <==> messageId != ""
  {
    var digits := Padded(seq_, 10);
    var stem := digits + "-" + messageId;
    var name := ReceiptFileName(seq_, messageId);
    ParsePadded(seq_, 10);
    ExtOfYaml(stem);
    assert name == stem + ".yaml";
    assert name[|stem|..] == ".yaml" && name[..|stem|] == stem;
    IndexOfFirst(digits, '-', messageId);
    assert stem == digits + ['-'] + messageId;
    assert stem[|digits| + 1..] == messageId;
  }
}
