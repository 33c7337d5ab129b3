/** The string helpers of the CBSA tariff scraper: normalising a scraped HS
    code to the dotted `XX.XX.XX.rest` form, reading its chapter number, and
    the de-duplication applied before the codes are saved. */
module HsCodeFormat {
  import opened Text
  import opened Numbers

  // ---------------------------------------------------------------------
  // _clean_hs_code

  /** The digits of `s`, in order (`re.sub(r'[^\d]', '', s)`). */
  function Digits(s: string): (r: string)
    ensures forall c <- r :: IsDigit(c)
    ensures |r| <= |s|
  {
    if s == [] then [] else (if IsDigit(s[0]) then [s[0]] else []) + Digits(s[1..])
  }

  lemma {:induction false} DigitsAppend(a: string, b: string)
    ensures Digits(a + b) == Digits(a) + Digits(b)
  {
    if a == [] {
      assert a + b == b;
    } else {
      assert (a + b)[0] == a[0];
      assert (a + b)[1..] == a[1..] + b;
      DigitsAppend(a[1..], b);
    }
  }

  lemma {:induction false} DigitsOfDigits(s: string)
    requires forall c <- s :: IsDigit(c)
    ensures Digits(s) == s
  {
    if s != [] {
      DigitsOfDigits(s[1..]);
      assert [s[0]] + s[1..] == s;
    }
  }

  /** `_clean_hs_code`: keep the digits; with six or more of them, put a dot
      after the second, fourth and sixth (so exactly six digits end in a dot). */
  function CleanHsCode(raw: string): (r: string)
    ensures var d := Digits(raw);
      && (|d| < 6 ==> r == d)
      && (|d| >= 6 ==>
            && |r| == |d| + 3
            && r[..2] == d[..2] && r[2] == '.'
            && r[3..5] == d[2..4] && r[5] == '.'
            && r[6..8] == d[4..6] && r[8] == '.'
            && r[9..] == d[6..])
  {
    var d := Digits(raw);
    if |d| >= 6 then d[..2] + "." + d[2..4] + "." + d[4..6] + "." + d[6..]
    else d
  }

  /** A cleaned code has no dot below six digits, and otherwise exactly the
      three dots at positions 2, 5 and 8. */
  lemma CleanHsCodeDots(raw: string)
    ensures var d := Digits(raw); var r := CleanHsCode(raw);
      && (|d| < 6 ==> '.' !in r)
      && (|d| >= 6 ==> forall i :: 0 <= i < |r| ==> (r[i] == '.' <==> i == 2 || i == 5 || i == 8))
  {
    var d := Digits(raw);
    var r := CleanHsCode(raw);
    if |d| >= 6 {
      forall i | 0 <= i < |r| ensures r[i] == '.' <==> i == 2 || i == 5 || i == 8 {
        var j := if i < 2 then i else if i < 5 then i - 1 else if i < 8 then i - 2 else i - 3;
        if i != 2 && i != 5 && i != 8 {
          assert r[i] == d[j];
          assert d[j] in d;
        }
      }
    }
  }

  lemma DigitsAroundDot(a: string, b: string)
    ensures Digits(a + "." + b) == Digits(a) + Digits(b)
  {
    DigitsAroundNonDigit(a, '.', b);
  }

  lemma DigitsAroundNonDigit(a: string, c: char, b: string)
    requires !IsDigit(c)
    ensures Digits(a + [c] + b) == Digits(a) + Digits(b)
  {
    assert Digits([c]) == [] by {
      assert [c][1..] == [];
    }
    assert Digits(a + [c]) == Digits(a) by {
      DigitsAppend(a, [c]);
    }
    DigitsAppend(a + [c], b);
  }

  /** Removing the dots (every non-digit) from a cleaned code gives back
      exactly the digits of the raw input. */
  lemma CleanHsCodeKeepsDigits(raw: string)
    ensures Digits(CleanHsCode(raw)) == Digits(raw)
  {
    var d := Digits(raw);
    DigitsOfDigits(d);
    if |d| >= 6 {
      var a, b, c, e := d[..2], d[2..4], d[4..6], d[6..];
      assert d == a + b + c + e;
      DigitsOfDigits(a);
      DigitsOfDigits(b);
      DigitsOfDigits(c);
      DigitsOfDigits(e);
      DigitsAroundDot(a, b);
      DigitsAroundDot(a + "." + b, c);
      DigitsAroundDot(a + "." + b + "." + c, e);
    }
  }

  /** Cleaning is idempotent. */
  lemma CleanHsCodeIdempotent(raw: string)
    ensures CleanHsCode(CleanHsCode(raw)) == CleanHsCode(raw)
  {
    CleanHsCodeKeepsDigits(raw);
  }

  /** A bare six-digit subheading comes back with a trailing dot. */
  lemma CleanSixDigits(raw: string)
    requires |raw| == 6 && forall c <- raw :: IsDigit(c)
    ensures CleanHsCode(raw) == raw[..2] + "." + raw[2..4] + "." + raw[4..6] + "."
  {
    DigitsOfDigits(raw);
  }

  // ---------------------------------------------------------------------
  // _extract_chapter

  /** `s` without its leading non-digits. */
  function SkipNonDigits(s: string): (r: string)
    ensures r == [] || IsDigit(r[0])
  {
    if s == [] || IsDigit(s[0]) then s else SkipNonDigits(s[1..])
  }

  /** The longest all-digit prefix of `s`. */
  function LeadingDigits(s: string): string {
    if s == [] || !IsDigit(s[0]) then [] else [s[0]] + LeadingDigits(s[1..])
  }

  /** The first match of `\d+` in `s`, or empty when `s` has no digit. */
  function FirstDigitRun(s: string): (r: string)
    ensures AllDigits(r)
    ensures |r| <= |s|
  {
    SkipNonDigitsSuffix(s);
    LeadingDigitsSpec(SkipNonDigits(s));
    LeadingDigits(SkipNonDigits(s))
  }

  /** Skipping only drops characters from the front. */
  lemma {:induction false} SkipNonDigitsSuffix(s: string)
    ensures |SkipNonDigits(s)| <= |s|
  {
    if s != [] && !IsDigit(s[0]) {
      SkipNonDigitsSuffix(s[1..]);
    }
  }

  predicate NoDigits(s: string) {
    forall c <- s :: !IsDigit(c)
  }

  predicate AllDigits(s: string) {
    forall c <- s :: IsDigit(c)
  }

  /** `run` is a maximal run of digits starting at `i` with no digit before it. */
  predicate FirstRunAt(s: string, run: string, i: int) {
    && 0 <= i <= |s| - |run|
    && NoDigits(s[..i])
    && s[i..i + |run|] == run
    && AllDigits(run)
    && (i + |run| == |s| || !IsDigit(s[i + |run|]))
  }

  /** The run found is the first maximal run of digits: only non-digits
      precede it, it is all digits, and a non-digit (or the end) follows it;
      it is empty exactly when `s` has no digit. */
  lemma {:induction false} FirstDigitRunSpec(s: string)
    ensures FirstDigitRun(s) == [] <==> Digits(s) == []
    ensures exists i :: FirstRunAt(s, FirstDigitRun(s), i)
  {
    var run := FirstDigitRun(s);
    if s == [] {
      assert FirstRunAt(s, run, 0);
    } else if IsDigit(s[0]) {
      LeadingDigitsSpec(s);
      assert s[..0] == [];
      assert FirstRunAt(s, run, 0);
    } else {
      var t := s[1..];
      FirstDigitRunSpec(t);
      assert run == FirstDigitRun(t);
      var j :| FirstRunAt(t, run, j);
      assert s[..j + 1] == [s[0]] + t[..j];
      assert s[j + 1..j + 1 + |run|] == t[j..j + |run|];
      assert FirstRunAt(s, run, j + 1);
      assert Digits(s) == Digits(t);
    }
  }

  /** No first run of digits exactly when there is no digit at all. */
  lemma {:induction false} FirstDigitRunEmpty(s: string)
    ensures FirstDigitRun(s) == [] <==> Digits(s) == []
  {
    if s != [] {
      if IsDigit(s[0]) {
        LeadingDigitsSpec(s);
      } else {
        FirstDigitRunEmpty(s[1..]);
      }
    }
  }

  lemma {:induction false} LeadingDigitsSpec(s: string)
    ensures var run := LeadingDigits(s);
      && run <= s
      && AllDigits(run)
      && (|run| == |s| || !IsDigit(s[|run|]))
      && (s != [] && IsDigit(s[0]) ==> run != [] && Digits(s) != [])
  {
    if s != [] && IsDigit(s[0]) {
      LeadingDigitsSpec(s[1..]);
      assert s == [s[0]] + s[1..];
    }
  }

  function DigitValue(c: char): (r: int)
    requires IsDigit(c)
    ensures 0 <= r <= 9
  {
    c as int - '0' as int
  }

  /** The decimal value of a string of digits (`int(ds)`). */
  function ParseDecimal(ds: string): (r: nat)
    requires forall c <- ds :: IsDigit(c)
    ensures r < Pow10(|ds|)
  {
    if ds == [] then 0
    else
      var last := ds[|ds| - 1];
      assert last in ds;
      var prior := ParseDecimal(ds[..|ds| - 1]);
      assert prior * 10 <= (Pow10(|ds| - 1) - 1) * 10;
      prior * 10 + DigitValue(last)
  }

  function Pow10(n: nat): nat {
    if n == 0 then 1 else 10 * Pow10(n - 1)
  }

  /** `_extract_chapter`: the number formed by the first (at most) two
      characters of the first run of digits, or 0 when there is no digit. */
  function ExtractChapter(hsCode: string): (r: nat)
    ensures r <= 99
    ensures Digits(hsCode) == [] ==> r == 0
  {
    FirstDigitRunEmpty(hsCode);
    LeadingDigitsSpec(SkipNonDigits(hsCode));
    var run := FirstDigitRun(hsCode);
    if run == [] then 0
    else
      var firstTwo := run[..Min(2, |run|)];
      assert Pow10(|firstTwo|) <= 100;
      ParseDecimal(firstTwo)
  }

  /** The chapter of a cleaned code is read from the first two digits of the
      raw input (or its only digit). */
  lemma ChapterOfCleanCode(raw: string)
    requires Digits(raw) != []
    ensures var d := Digits(raw);
      ExtractChapter(CleanHsCode(raw)) == ParseDecimal(d[..Min(2, |d|)])
  {
    var d := Digits(raw);
    var r := CleanHsCode(raw);
    assert r[0] == d[0] && d[0] in d;
    assert FirstDigitRun(r) == LeadingDigits(r);
    if |d| >= 6 {
      LongCodeRun(raw);
      assert FirstDigitRun(r)[..Min(2, 2)] == d[..2];
    } else {
      assert LeadingDigits(r) == d by {
        DigitsOfDigits(d);
        LeadingDigitsAll(d);
      }
    }
  }

  /** A dotted code's first run of digits is its first two digits. */
  lemma LongCodeRun(raw: string)
    requires |Digits(raw)| >= 6
    ensures LeadingDigits(CleanHsCode(raw)) == Digits(raw)[..2]
  {
    var d := Digits(raw);
    var r := CleanHsCode(raw);
    assert r[2] == '.';
    assert r[0] == d[0] && d[0] in d;
    assert r[1] == d[1] && d[1] in d;
    LeadingDigitsAtMost(r, 2);
  }

  /** The chapter is read from the first run of digits, whatever precedes it. */
  lemma ExtractChapterExamples()
    ensures ExtractChapter("84.71.30.00") == 84
    ensures ExtractChapter("n/a") == 0
  {
    var s := "84.71.30.00";
    LeadingDigitsAtMost(s, 2);
    assert s[..2] == "84";
    assert FirstDigitRun(s) == "84";
    assert "84"[..Min(2, 2)] == "84";
    assert "84"[..1] == "8" && "8"[..0] == [];
    assert ParseDecimal("8") == 8;
    assert ParseDecimal("84") == 84;
    assert Digits("n/a") == [];
  }

  lemma {:induction false} LeadingDigitsAll(s: string)
    requires forall c <- s :: IsDigit(c)
    ensures LeadingDigits(s) == s
  {
    if s != [] {
      LeadingDigitsAll(s[1..]);
      assert [s[0]] + s[1..] == s;
    }
  }

  lemma {:induction false} LeadingDigitsAtMost(s: string, n: nat)
    requires n < |s| && !IsDigit(s[n])
    requires forall i :: 0 <= i < n ==> IsDigit(s[i])
    ensures LeadingDigits(s) == s[..n]
  {
    if n > 0 {
      LeadingDigitsAtMost(s[1..], n - 1);
      assert s[..n] == [s[0]] + s[1..][..n - 1];
    }
  }

  // ---------------------------------------------------------------------
  // save_to_json

  /** One scraped tariff line. */
  datatype ScrapedCode = ScrapedCode(
    hsCode: string,
    description: string,
    dutyRate: string,
    chapter: int,
    source: string,
    scrapedAt: string)

  function Keys(codes: seq<ScrapedCode>): (r: seq<string>)
    ensures |r| == |codes|
    ensures forall i :: 0 <= i < |codes| ==> r[i] == codes[i].hsCode
  {
    seq(|codes|, i requires 0 <= i < |codes| => codes[i].hsCode)
  }

  predicate Distinct(ks: seq<string>) {
    forall i, j :: 0 <= i < j < |ks| ==> ks[i] != ks[j]
  }

  /** Each key once, at its first occurrence. */
  function FirstOccurrences(ks: seq<string>): seq<string> {
    if ks == [] then []
    else
      var prior := FirstOccurrences(ks[..|ks| - 1]);
      if ks[|ks| - 1] in prior then prior else prior + [ks[|ks| - 1]]
  }

  /** The last entry of `codes` with key `k`. */
  function LastWithKey(codes: seq<ScrapedCode>, k: string): ScrapedCode
    requires k in Keys(codes)
  {
    var last := codes[|codes| - 1];
    if last.hsCode == k then last
    else
      assert k in Keys(codes[..|codes| - 1]) by {
        var i :| 0 <= i < |codes| && Keys(codes)[i] == k;
        assert Keys(codes[..|codes| - 1])[i] == k;
      }
      LastWithKey(codes[..|codes| - 1], k)
  }

  /** Where the entry with key `k` sits in `acc`, or -1 when there is none. */
  function IndexOfKey(acc: seq<ScrapedCode>, k: string): (i: int)
    ensures -1 <= i < |acc|
    ensures 0 <= i ==> acc[i].hsCode == k
    ensures i < 0 ==> k !in Keys(acc)
  {
    if acc == [] then -1
    else if acc[|acc| - 1].hsCode == k then |acc| - 1
    else
      var i := IndexOfKey(acc[..|acc| - 1], k);
      assert i < 0 ==> k !in Keys(acc) by {
        if i < 0 {
          forall j | 0 <= j < |acc| - 1 ensures Keys(acc)[j] != k {
            assert Keys(acc[..|acc| - 1])[j] == Keys(acc)[j];
          }
        }
      }
      i
  }

  /** One assignment `d[e.hsCode] = e` of the dict comprehension: replace the
      entry with that key in place, or add the entry at the end. */
  function Upsert(acc: seq<ScrapedCode>, e: ScrapedCode): (r: seq<ScrapedCode>)
    requires Distinct(Keys(acc))
    ensures Keys(r) == if e.hsCode in Keys(acc) then Keys(acc) else Keys(acc) + [e.hsCode]
    ensures Distinct(Keys(r))
    ensures e in r
    ensures forall x <- r :: x == e || (x in acc && x.hsCode != e.hsCode)
  {
    var i := IndexOfKey(acc, e.hsCode);
    if i < 0 then
      assert Keys(acc + [e]) == Keys(acc) + [e.hsCode];
      acc + [e]
    else
      var r := acc[i := e];
      assert Keys(r) == Keys(acc);
      assert e.hsCode in Keys(acc) by { assert Keys(acc)[i] == e.hsCode; }
      assert r[i] == e;
      assert forall x <- r :: x == e || (x in acc && x.hsCode != e.hsCode) by {
        forall x <- r ensures x == e || (x in acc && x.hsCode != e.hsCode) {
          var j :| 0 <= j < |r| && r[j] == x;
          if j != i {
            assert Keys(acc)[i] != Keys(acc)[j];
          }
        }
      }
      r
  }

  /** `{code['hs_code']: code for code in hs_codes}.values()`. */
  function Dedup(codes: seq<ScrapedCode>): (r: seq<ScrapedCode>)
    ensures Distinct(Keys(r))
  {
    if codes == [] then []
    else Upsert(Dedup(codes[..|codes| - 1]), codes[|codes| - 1])
  }

  /** De-duplication keeps each key once, in order of first appearance. */
  lemma {:induction false} DedupKeys(codes: seq<ScrapedCode>)
    ensures Keys(Dedup(codes)) == FirstOccurrences(Keys(codes))
  {
    if codes != [] {
      var init := codes[..|codes| - 1];
      DedupKeys(init);
      assert Keys(codes)[..|codes| - 1] == Keys(init);
    }
  }

  /** For each key, de-duplication keeps the entry that came last. */
  lemma {:induction false} DedupKeepsLast(codes: seq<ScrapedCode>)
    ensures forall x <- Dedup(codes) :: x.hsCode in Keys(codes) && x == LastWithKey(codes, x.hsCode)
  {
    if codes != [] {
      var init := codes[..|codes| - 1];
      var e := codes[|codes| - 1];
      DedupKeepsLast(init);
      assert Keys(codes) == Keys(init) + [e.hsCode];
      forall x <- Dedup(codes) ensures x.hsCode in Keys(codes) && x == LastWithKey(codes, x.hsCode) {
        if x != e {
          assert x in Dedup(init);
        }
      }
    }
  }

  lemma {:induction false} FirstOccurrencesSpec(ks: seq<string>)
    ensures Distinct(FirstOccurrences(ks))
    ensures forall k :: k in FirstOccurrences(ks) <==> k in ks
    ensures |FirstOccurrences(ks)| == |set k | k in ks|
  {
    if ks != [] {
      var init := ks[..|ks| - 1];
      var k := ks[|ks| - 1];
      FirstOccurrencesSpec(init);
      assert ks == init + [k];
      assert (set x | x in ks) == (set x | x in init) + {k};
    }
  }

  /** The document `save_to_json` writes, without the file itself. */
  datatype SavedOutput = SavedOutput(
    totalCodes: nat,
    scrapedAt: string,
    source: string,
    version: string,
    codes: seq<ScrapedCode>)

  /** `total_codes` is the number of distinct codes scraped, and the saved
      list holds one entry per code. */
  function SaveOutput(hsCodes: seq<ScrapedCode>, now: string): (out: SavedOutput)
    ensures out.totalCodes == |set k | k in Keys(hsCodes)|
    ensures Distinct(Keys(out.codes))
    ensures forall k :: k in Keys(out.codes) <==> k in Keys(hsCodes)
    ensures forall x <- out.codes :: x.hsCode in Keys(hsCodes) && x == LastWithKey(hsCodes, x.hsCode)
    ensures out.source == "CBSA" && out.version == "1.0" && out.scrapedAt == now
  {
    var unique := Dedup(hsCodes);
    DedupKeys(hsCodes);
    DedupKeepsLast(hsCodes);
    FirstOccurrencesSpec(Keys(hsCodes));
    SavedOutput(|unique|, now, "CBSA", "1.0", unique)
  }
}
