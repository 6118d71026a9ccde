/** The check `generateBarcode` makes before handing an EAN to the barcode library:
    remove every character that is not an ASCII digit (`replace(/\D/g, '')`), then
    hand the code on only when exactly 13 digits remain. This check does not verify the
    EAN-13 check digit. */
module Barcode {
  import opened Wrappers
  import opened Products

  /** `\d` in a JavaScript regular expression without the `u` flag: '0' to '9'. */
  predicate IsDigit(c: char) {
    '0' <= c <= '9'
  }

  predicate AllDigits(s: string) {
    forall i :: 0 <= i < |s| ==> IsDigit(s[i])
  }

  /** The code with every non-digit removed. */
  function DigitsOnly(s: string): (clean: string)
    ensures AllDigits(clean)
    ensures |clean| <= |s|
  {
    if s == [] then []
    else if IsDigit(s[0]) then [s[0]] + DigitsOnly(s[1..])
    else DigitsOnly(s[1..])
  }

  /** Stripping distributes over concatenation: every digit is kept, in order. */
  lemma {:induction false} DigitsOnlyAppend(a: string, b: string)
    ensures DigitsOnly(a + b) == DigitsOnly(a) + DigitsOnly(b)
  {
    if a == [] {
      assert a + b == b;
    } else {
      assert (a + b)[0] == a[0] && (a + b)[1..] == a[1..] + b;
      DigitsOnlyAppend(a[1..], b);
    }
  }

  /** A string of digits is left unchanged; in particular stripping is idempotent. */
  lemma {:induction false} DigitsOnlyOfDigits(s: string)
    requires AllDigits(s)
    ensures DigitsOnly(s) == s
  {
    if s != [] {
      DigitsOnlyOfDigits(s[1..]);
    }
  }

  /** The value handed to the barcode library, if any: the stripped code when it has
      exactly 13 digits. The source's extra `/^\d+$/` test is kept in the body; the
      contract shows it never rejects anything. */
  function BarcodeValue(eanCode: string): (handed: Option<string>)
    ensures handed.Some? <==> |DigitsOnly(eanCode)| == 13
    ensures handed.Some? ==> |handed.value| == 13 && AllDigits(handed.value) && handed.value == DigitsOnly(eanCode)
  {
    var clean := DigitsOnly(eanCode);
    if |clean| == 13 && |clean| > 0 && AllDigits(clean) then Some(clean) else None
  }

  /** Characters other than digits never change the decision: a separator or stray
      letter inserted anywhere is ignored. */
  lemma {:induction false} NonDigitIgnored(a: string, c: char, b: string)
    requires !IsDigit(c)
    ensures BarcodeValue(a + [c] + b) == BarcodeValue(a + b)
  {
    DigitsOnlyAppend(a + [c], b);
    DigitsOnlyAppend(a, [c]);
    DigitsOnlyAppend(a, b);
    assert DigitsOnly([c]) == [];
    assert DigitsOnly(a + [c] + b) == DigitsOnly(a + b);
  }

  /** A string of digits passes the check, unchanged, exactly when it has 13 of them. */
  lemma DigitStringPassesIffThirteen(s: string)
    requires AllDigits(s)
    ensures BarcodeValue(s) == (if |s| == 13 then Some(s) else None)
  {
    DigitsOnlyOfDigits(s);
  }

  /** "80-00500037508x" (15 characters, 13 of them digits) qualifies, and the digits
      "8000500037508" are handed to the barcode library. The digit runs are parameters rather than literals
      because on a literal argument the verifier unfolds `DigitsOnly` character by
      character and runs out of resource. */
  lemma SeparatedCodePassesCheck(lead: string, rest: string)
    requires lead == "80" && rest == "00500037508"
    ensures lead + "-" + rest + "x" == "80-00500037508x"
    ensures lead + rest == "8000500037508"
    ensures BarcodeValue(lead + "-" + rest + "x") == Some(lead + rest)
  {
    NonDigitIgnored(lead + "-" + rest, 'x', []);
    assert lead + "-" + rest + "x" == lead + "-" + rest + ['x'] + [];
    assert lead + "-" + rest + [] == lead + "-" + rest;
    NonDigitIgnored(lead, '-', rest);
    assert lead + "-" + rest == lead + ['-'] + rest;
    assert AllDigits(lead + rest) && |lead + rest| == 13;
    DigitStringPassesIffThirteen(lead + rest);
  }

  /** A short code is skipped silently. */
  lemma ShortCodeIsSkipped()
    ensures BarcodeValue("12345") == None
  {
  }

  /** Every demo EAN passes the check and is handed to the barcode library unchanged. */
  lemma DemoBarcodesPassCheck()
    ensures forall k :: 0 <= k < |DemoData()| ==> BarcodeValue(DemoData()[k].eanCode) == Some(DemoData()[k].eanCode)
  {
    var demo := DemoData();
    DemoDataComplete();
    forall k | 0 <= k < |demo|
      ensures BarcodeValue(demo[k].eanCode) == Some(demo[k].eanCode)
    {
      var e := demo[k].eanCode;
      assert AllDigits(e) by {
        if k == 0 { assert e == "8000500037508"; }
        else if k == 1 { assert e == "5449000000996"; }
        else if k == 2 { assert e == "7622210951052"; }
        else if k == 3 { assert e == "4001686301081"; }
        else if k == 4 { assert e == "9002490100059"; }
        else { assert e == "8712566401234"; }
      }
      DigitsOnlyOfDigits(e);
    }
  }
}
