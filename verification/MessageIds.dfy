/** Message ids as gossipsub.py builds them: the first eight characters of the node id, a colon, and a
    counter printed with at least six decimal digits.  Ids never collide while the prefixes differ. */
module MessageIds {

  /** A 64-character hex public key. */
  datatype NodeId = NodeId(hex: string)

  datatype MsgId = MsgId(text: string)

  const ID_PREFIX := 8
  const PAD_WIDTH := 6

  function Digit(d: nat): char
    requires d < 10
  {
    '0' + d as char
  }

  function Decimal(n: nat): string {
    if n < 10 then [Digit(n)] else Decimal(n / 10) + [Digit(n % 10)]
  }

  function PadTo(s: string, width: nat): string
    decreases width - |s|
  {
    if |s| >= width then s else PadTo("0" + s, width)
  }

  function Prefix(node: NodeId): string {
    if |node.hex| < ID_PREFIX then node.hex else node.hex[..ID_PREFIX]
  }

  function GenId(node: NodeId, counter: nat): MsgId {
    MsgId(Prefix(node) + ":" + PadTo(Decimal(counter), PAD_WIDTH))
  }

  /** The number a digit string denotes. */
  ghost function Numeral(s: string): int {
    if s == "" then 0 else 10 * Numeral(s[..|s| - 1]) + (s[|s| - 1] as int - '0' as int)
  }

  lemma {:induction false} NumeralOfDecimal(n: nat)
    ensures Numeral(Decimal(n)) == n
  {
    if n < 10 {
      assert Decimal(n)[..0] == "";
    } else {
      NumeralOfDecimal(n / 10);
      assert Decimal(n)[..|Decimal(n)| - 1] == Decimal(n / 10);
    }
  }

  lemma {:induction false} NumeralLeadingZero(s: string)
    ensures Numeral("0" + s) == Numeral(s)
  {
    if s == "" {
      assert ("0" + s)[..0] == "";
    } else {
      NumeralLeadingZero(s[..|s| - 1]);
      assert ("0" + s)[..|s|] == "0" + s[..|s| - 1];
    }
  }

  lemma {:induction false} NumeralOfPadded(s: string, width: nat)
    ensures Numeral(PadTo(s, width)) == Numeral(s)
    decreases width - |s|
  {
    if |s| >= width {
    } else {
      NumeralLeadingZero(s);
      NumeralOfPadded("0" + s, width);
    }
  }

  ghost predicate IsDigit(c: char) {
    '0' <= c <= '9'
  }

  lemma {:induction false} DecimalDigits(n: nat)
    ensures Decimal(n) != "" && forall i :: 0 <= i < |Decimal(n)| ==> IsDigit(Decimal(n)[i])
    ensures |Decimal(n)| > 1 ==> Decimal(n)[0] != '0'
  {
    if n >= 10 {
      DecimalDigits(n / 10);
      if n / 10 < 10 {
        assert Decimal(n / 10) == [Digit(n / 10)];
      }
    }
  }

  lemma {:induction false} PadToIs(s: string, width: nat)
    requires forall i :: 0 <= i < |s| ==> IsDigit(s[i])
    ensures |PadTo(s, width)| == if |s| >= width then |s| else width
    ensures forall i :: 0 <= i < |PadTo(s, width)| ==> IsDigit(PadTo(s, width)[i])
    ensures |s| >= width ==> PadTo(s, width) == s
    decreases width - |s|
  {
    if |s| < width {
      PadToIs("0" + s, width);
    }
  }

  /** An id is eight characters of the node's, a colon, and digits that denote the counter: six of them, or as many
      more as it takes. */
  lemma GenIdIs(node: NodeId, counter: nat)
    requires |node.hex| >= 8
    ensures var text := GenId(node, counter).text;
            && |text| >= 15 && text[..8] == node.hex[..8] && text[8] == ':'
            && (forall i :: 9 <= i < |text| ==> IsDigit(text[i])) && Numeral(text[9..]) == counter
            && (|text| > 15 ==> text[9] != '0')
  {
    var digits := PadTo(Decimal(counter), PAD_WIDTH);
    PaddedIs(counter);
    IdParts(node.hex[..8], digits);
    assert Prefix(node) == node.hex[..8];
  }

  lemma PaddedIs(counter: nat)
    ensures var digits := PadTo(Decimal(counter), 6);
            && |digits| >= 6 && (forall i :: 0 <= i < |digits| ==> IsDigit(digits[i])) && Numeral(digits) == counter
            && (|digits| > 6 ==> digits[0] != '0')
  {
    DecimalDigits(counter);
    PadToIs(Decimal(counter), 6);
    NumeralOfPadded(Decimal(counter), 6);
    NumeralOfDecimal(counter);
  }

  lemma IdParts(prefix: string, digits: string)
    requires |prefix| == 8
    ensures var text := prefix + ":" + digits;
            |text| == 9 + |digits| && text[..8] == prefix && text[8] == ':' && text[9..] == digits
            && forall i :: 9 <= i < |text| ==> text[i] == digits[i - 9]
  {
  }

  /** Among nodes with full-length ids, two generated message ids are equal exactly when the prefixes and
      the counters are: distinct prefixes are what keeps ids apart, and all that does. */
  lemma GenIdInjective(a: NodeId, i: nat, b: NodeId, j: nat)
    requires |a.hex| >= ID_PREFIX && |b.hex| >= ID_PREFIX
    ensures GenId(a, i) == GenId(b, j) <==> Prefix(a) == Prefix(b) && i == j
  {
    if GenId(a, i) == GenId(b, j) {
      var pi, pj := PadTo(Decimal(i), PAD_WIDTH), PadTo(Decimal(j), PAD_WIDTH);
      var text := GenId(a, i).text;
      assert text[..ID_PREFIX] == Prefix(a) && text[..ID_PREFIX] == Prefix(b);
      assert text[ID_PREFIX + 1..] == pi && text[ID_PREFIX + 1..] == pj;
      NumeralOfPadded(Decimal(i), PAD_WIDTH);
      NumeralOfPadded(Decimal(j), PAD_WIDTH);
      NumeralOfDecimal(i);
      NumeralOfDecimal(j);
    }
  }
}
