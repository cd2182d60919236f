/**
  The static table of common charging specifications and the filter that
  turns a row's current label ("32A") into the text loaded into the input
  field ("32"): every character other than a digit or a dot is dropped.
 */
module ReferenceTable {
  import opened Conversion

  /** One row of the reference table; every column is display text. */
  datatype Reference = Reference(kind: string, phase: string, voltage: string, current: string, power: string)

  /** The five rows, in display order: three single-phase rows at 220V and
      two three-phase rows at 380V. */
  function References(): (rows: seq<Reference>)
    ensures |rows| == 5
    ensures forall i :: 0 <= i < |rows| ==> (rows[i].phase == "單相" <==> i < 3)
    ensures forall i :: 0 <= i < |rows| ==> (rows[i].phase == "三相" <==> 3 <= i)
  {
    [
      Reference("家用插座 (13A)", "單相", "220V", "13A", "~ 2.8 kW"),
      Reference("中速充電 (16A)", "單相", "220V", "16A", "~ 3.5 kW"),
      Reference("標準中速 (32A)", "單相", "220V", "32A", "~ 7.0 kW"),
      Reference("三相中速 (16A)", "三相", "380V", "16A", "~ 11 kW"),
      Reference("三相快速 (32A)", "三相", "380V", "32A", "~ 22 kW")
    ]
  }

  /** The phase a row selects: single exactly when its label is 單相. */
  function PhaseOfLabel(tag: string): (p: Phase)
    ensures p == Single <==> tag == "單相"
  {
    if tag == "單相" then Single else Three
  }

  // ---------------------------------------------------------------------------
  // The digit/dot filter

  /** A character the filter keeps: 0-9 or a dot. */
  predicate IsNumericChar(c: char)
  {
    '0' <= c <= '9' || c == '.'
  }

  predicate AllNumeric(s: string)
  {
    forall i :: 0 <= i < |s| ==> IsNumericChar(s[i])
  }

  /** Removes every character that is neither a digit nor a dot. */
  function Strip(s: string): (r: string)
    ensures AllNumeric(r)
    ensures |r| <= |s|
  {
    if s == [] then []
    else (if IsNumericChar(s[0]) then [s[0]] else []) + Strip(s[1..])
  }

  /** `a` can be obtained from `b` by deleting characters. */
  predicate IsSubsequence(a: string, b: string)
  {
    if a == [] then true
    else if b == [] then false
    else if a[0] == b[0] then IsSubsequence(a[1..], b[1..])
    else IsSubsequence(a, b[1..])
  }

  /** The filter keeps characters in their original order. */
  lemma {:induction false} StripIsSubsequence(s: string)
    ensures IsSubsequence(Strip(s), s)
  {
    if s != [] {
      StripIsSubsequence(s[1..]);
      if IsNumericChar(s[0]) {
        assert Strip(s) == [s[0]] + Strip(s[1..]);
      } else {
        assert Strip(s) == Strip(s[1..]);
        SubsequenceOfTail(Strip(s[1..]), s);
      }
    }
  }

  lemma {:induction false} SubsequenceOfTail(a: string, b: string)
    requires b != [] && IsSubsequence(a, b[1..])
    ensures IsSubsequence(a, b)
  {
    if a != [] && a[0] == b[0] {
      SubsequenceDropHead(a, b[1..]);
    }
  }

  lemma {:induction false} SubsequenceDropHead(a: string, b: string)
    requires a != [] && IsSubsequence(a, b)
    ensures IsSubsequence(a[1..], b)
  {
    if a[1..] != [] {
      if a[0] == b[0] {
        SubsequenceOfTail(a[1..], b);
      } else {
        SubsequenceDropHead(a, b[1..]);
        SubsequenceOfTail(a[1..], b);
      }
    }
  }

  /** The filter keeps every digit and dot, as often as it occurs, and
      nothing else. */
  lemma {:induction false} StripKeepsNumericChars(s: string, c: char)
    ensures multiset(Strip(s))[c] == if IsNumericChar(c) then multiset(s)[c] else 0
  {
    if s != [] {
      StripKeepsNumericChars(s[1..], c);
      assert s == [s[0]] + s[1..];
      assert multiset(s) == multiset{s[0]} + multiset(s[1..]);
    }
  }

  /** The filter distributes over concatenation. */
  lemma {:induction false} StripAppend(a: string, b: string)
    ensures Strip(a + b) == Strip(a) + Strip(b)
  {
    if a != [] {
      assert (a + b)[1..] == a[1..] + b;
      StripAppend(a[1..], b);
    } else {
      assert a + b == b;
    }
  }

  /** A text made only of digits and dots passes through unchanged. */
  lemma {:induction false} StripFixesNumeric(s: string)
    requires AllNumeric(s)
    ensures Strip(s) == s
  {
    if s != [] {
      StripFixesNumeric(s[1..]);
    }
  }

  /** Filtering twice is filtering once. */
  lemma StripIdempotent(s: string)
    ensures Strip(Strip(s)) == Strip(s)
  {
    StripFixesNumeric(Strip(s));
  }

  // ---------------------------------------------------------------------------
  // Decimal value of a digit string

  predicate IsDigits(s: string)
  {
    forall i :: 0 <= i < |s| ==> '0' <= s[i] <= '9'
  }

  /** The number a string of decimal digits denotes. */
  function DigitsValue(s: string): (n: nat)
    requires IsDigits(s)
  {
    if s == [] then 0
    else DigitsValue(s[..|s| - 1]) * 10 + (s[|s| - 1] as int - '0' as int)
  }

  // ---------------------------------------------------------------------------
  // Facts about the table

  /** The stripped current label of each row, in table order. */
  function StrippedCurrents(rows: seq<Reference>): (r: seq<string>)
    ensures |r| == |rows|
    ensures forall i :: 0 <= i < |rows| ==> r[i] == Strip(rows[i].current)
  {
    if rows == [] then [] else [Strip(rows[0].current)] + StrippedCurrents(rows[1..])
  }

  /** Clicking the rows loads 13, 16, 32, 16 and 32 into the input field. */
  lemma TableCurrents()
    ensures StrippedCurrents(References()) == ["13", "16", "32", "16", "32"]
  {
    assert Strip("13A") == "13";
    assert Strip("16A") == "16";
    assert Strip("32A") == "32";
  }

  /** Every stripped current is a non-empty digit string. */
  lemma TableCurrentsAreDigits(i: nat)
    requires i < |References()|
    ensures Strip(References()[i].current) != [] && IsDigits(Strip(References()[i].current))
  {
    TableCurrents();
    assert Strip(References()[i].current) == StrippedCurrents(References())[i];
  }

  /** Every row is labelled 單相 or 三相; single-phase rows list 220V and
      three-phase rows 380V, which is the default voltage of that phase. */
  lemma TableVoltagesMatchDefaults(i: nat)
    requires i < |References()|
    ensures References()[i].phase == "單相" || References()[i].phase == "三相"
    ensures References()[i].voltage == if References()[i].phase == "單相" then "220V" else "380V"
    ensures IsDigits(Strip(References()[i].voltage))
    ensures DigitsValue(Strip(References()[i].voltage)) as real == DefaultVoltage(PhaseOfLabel(References()[i].phase))
  {
    if i < 3 {
      VoltageLabelValue("220V", "220", 220);
    } else {
      VoltageLabelValue("380V", "380", 380);
    }
  }

  lemma VoltageLabelValue(tag: string, digits: string, n: nat)
    requires (tag == "220V" && digits == "220" && n == 220) || (tag == "380V" && digits == "380" && n == 380)
    ensures Strip(tag) == digits && IsDigits(digits) && DigitsValue(digits) == n
  {
    if tag == "220V" {
      assert Strip("220V") == "220";
      assert "220"[..2] == "22" && "22"[..1] == "2" && "2"[..0] == "";
      assert DigitsValue("2") == 2;
      assert DigitsValue("22") == 22;
    } else {
      assert Strip("380V") == "380";
      assert "380"[..2] == "38" && "38"[..1] == "3" && "3"[..0] == "";
      assert DigitsValue("3") == 3;
      assert DigitsValue("38") == 38;
    }
  }
}
