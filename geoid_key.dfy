/**
 * Census block GEOIDs are fixed-width text (2-digit state, 3-digit county,
 * 6-digit tract, 4-digit block).  The join key written into the summary
 * tables is `str(int(geocode))`, which has no leading zeros; a GEOID that
 * starts with '0' can therefore never equal it.  PaddedText is the key
 * that matches the GEOID text for every block.
 */
module GeoidKeys {
  import opened Decimal

  const GeoidWidth: nat := 15

  function Zeros(n: nat): (s: string)
    ensures |s| == n && AllDigits(s)
  {
    if n == 0 then "" else "0" + Zeros(n - 1)
  }

  /** The decimal text of n, left-padded with '0' to the given width. */
  function PaddedText(n: nat, width: nat): (s: string)
    ensures AllDigits(s) && |s| >= width
    ensures |s| == if |DecimalText(n)| >= width then |DecimalText(n)| else width
  {
    var d := DecimalText(n);
    if |d| >= width then d else Zeros(width - |d|) + d
  }

  lemma {:induction false} LeadingZeroValue(t: string)
    requires AllDigits(t)
    ensures AllDigits("0" + t) && DigitsValue("0" + t) == DigitsValue(t)
  {
    var s := "0" + t;
    if t == [] {
      assert s[..0] == [];
    } else {
      assert s[..|s| - 1] == "0" + t[..|t| - 1];
      LeadingZeroValue(t[..|t| - 1]);
    }
  }

  lemma PadOneMore(n: nat, width: nat)
    requires |DecimalText(n)| <= width
    ensures PaddedText(n, width + 1) == "0" + PaddedText(n, width)
  {
    var d := DecimalText(n);
    assert Zeros(width + 1 - |d|) == "0" + Zeros(width - |d|);
    assert ("0" + Zeros(width - |d|)) + d == "0" + (Zeros(width - |d|) + d);
    if |d| == width {
      assert Zeros(0) + d == d;
    }
  }

  /** Every digit string of the key width is recovered from its value by the padded rendering. */
  lemma {:induction false} PaddedRoundTrip(g: string)
    requires |g| > 0 && AllDigits(g)
    ensures PaddedText(DigitsValue(g), |g|) == g
  {
    if g[0] != '0' {
      CanonicalText(g);
    } else if |g| == 1 {
      assert g == "0";
      assert g[..0] == [];
      assert DigitsValue(g) == 0;
      assert DecimalText(0) == "0";
    } else {
      var t := g[1..];
      assert g == "0" + t;
      PaddedRoundTrip(t);
      LeadingZeroValue(t);
      PadOneMore(DigitsValue(t), |t|);
    }
  }

  /** The join key a GEOID column actually holds for block n. */
  function GeoidKey(n: nat): (key: string)
    ensures AllDigits(key) && |key| >= GeoidWidth
  {
    PaddedText(n, GeoidWidth)
  }

  /** Corrected key: for every 15-digit GEOID, the key of its value is the GEOID itself. */
  lemma GeoidKeyMatches(g: string)
    requires |g| == GeoidWidth && AllDigits(g)
    ensures GeoidKey(DigitsValue(g)) == g
  {
    PaddedRoundTrip(g);
  }

  /** As written: `str(int(g))` differs from g whenever the GEOID starts with '0', so the join drops that block. */
  lemma KeyTextDropsLeadingZero(g: string)
    requires |g| > 1 && AllDigits(g) && g[0] == '0'
    ensures DecimalText(DigitsValue(g)) != g
  {
  }

  /** A block of Autauga County, Alabama (state FIPS 01) exhibits it. */
  lemma AlabamaBlockExample()
    ensures DecimalText(DigitsValue("010010201001000")) != "010010201001000"
    ensures GeoidKey(DigitsValue("010010201001000")) == "010010201001000"
  {
    KeyTextDropsLeadingZero("010010201001000");
    GeoidKeyMatches("010010201001000");
  }

  /** Where the GEOID has no leading zero, as for Texas (state FIPS 48), both renderings agree. */
  lemma KeyTextAgreesWithoutLeadingZero(g: string)
    requires |g| == GeoidWidth && AllDigits(g) && g[0] != '0'
    ensures DecimalText(DigitsValue(g)) == g == GeoidKey(DigitsValue(g))
  {
    CanonicalText(g);
    GeoidKeyMatches(g);
  }
}
