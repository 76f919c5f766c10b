/**
 * The two helpers next to the catalogue: the JSON response envelope and the
 * pager that cuts one page out of a vector.
 */
module Utils {
  import opened Wrappers

  // ---------------------------------------------------------------------------
  // Decimal rendering of an integer, as `{}` formats an `i32`
  // ---------------------------------------------------------------------------

  predicate IsDigit(c: char)
  {
    '0' <= c <= '9'
  }

  function DigitChar(d: nat): (c: char)
    requires d < 10
    ensures IsDigit(c)
  {
    ('0' as int + d) as char
  }

  function DigitValue(c: char): nat
    requires IsDigit(c)
  {
    c as int - '0' as int
  }

  /** The decimal digits of `n`, most significant first, without leading zeros. */
  function Digits(n: nat): (s: string)
    ensures |s| > 0 && forall i :: 0 <= i < |s| ==> IsDigit(s[i])
  {
    if n < 10 then [DigitChar(n)] else Digits(n / 10) + [DigitChar(n % 10)]
  }

  /** `n` in decimal, with a leading `-` when negative. */
  function Decimal(n: int): (s: string)
    ensures |s| > 0
  {
    if n < 0 then "-" + Digits(-n) else Digits(n)
  }

  predicate AllDigits(s: string)
  {
    forall i :: 0 <= i < |s| ==> IsDigit(s[i])
  }

  /** The value of a string of decimal digits. */
  function ParseDigits(s: string): nat
    requires AllDigits(s)
  {
    if s == [] then 0 else ParseDigits(s[..|s| - 1]) * 10 + DigitValue(s[|s| - 1])
  }

  /** The value of an optionally signed decimal numeral. */
  function ParseDecimal(s: string): int
    requires |s| > 0 && AllDigits(if s[0] == '-' then s[1..] else s)
  {
    if s[0] == '-' then 0 - ParseDigits(s[1..]) as int else ParseDigits(s)
  }

  /** Reading back the digits of `n` gives `n`. */
  lemma {:induction false} DigitsRoundTrip(n: nat)
    ensures ParseDigits(Digits(n)) == n
  {
    if n >= 10 {
      var s := Digits(n);
      assert s[..|s| - 1] == Digits(n / 10);
      DigitsRoundTrip(n / 10);
    }
  }

  /** Reading back the rendering of `n` gives `n`. */
  lemma DecimalRoundTrip(n: int)
    ensures AllDigits(if Decimal(n)[0] == '-' then Decimal(n)[1..] else Decimal(n))
    ensures ParseDecimal(Decimal(n)) == n
  {
    if n < 0 {
      assert Decimal(n)[1..] == Digits(-n);
      DigitsRoundTrip(-n);
    } else {
      DigitsRoundTrip(n);
    }
  }

  // ---------------------------------------------------------------------------
  // get_response_json
  // ---------------------------------------------------------------------------

  /**
   * `get_response_json`: the envelope `{"code":…,"message":"…","data":…}`
   * laid out on four lines. `msg` and `data` are inserted verbatim, with no
   * escaping. The contract gives the exact layout piece by piece.
   */
  function ResponseJson(code: int, msg: string, data: string): (r: string)
    ensures var c, m, d := |Decimal(code)|, |msg|, |data|;
      && |r| == 34 + c + m + d
      && r[..9] == "{\n\"code\":"
      && r[9..9 + c] == Decimal(code)
      && r[9 + c..22 + c] == ",\n\"message\":\""
      && r[22 + c..22 + c + m] == msg
      && r[22 + c + m..32 + c + m] == "\",\n\"data\":"
      && r[32 + c + m..32 + c + m + d] == data
      && r[32 + c + m + d..] == "\n}"
  {
    SevenParts("{\n\"code\":", Decimal(code), ",\n\"message\":\"", msg, "\",\n\"data\":", data, "\n}");
    "{\n\"code\":" + Decimal(code) + ",\n\"message\":\"" + msg + "\",\n\"data\":" + data + "\n}"
  }

  /** Where each of seven concatenated parts sits in the whole. */
  lemma SevenParts(p0: string, p1: string, p2: string, p3: string, p4: string, p5: string, p6: string)
    ensures var r := p0 + p1 + p2 + p3 + p4 + p5 + p6;
      var e0 := |p0|; var e1 := e0 + |p1|; var e2 := e1 + |p2|; var e3 := e2 + |p3|;
      var e4 := e3 + |p4|; var e5 := e4 + |p5|;
      && |r| == e5 + |p6|
      && r[..e0] == p0 && r[e0..e1] == p1 && r[e1..e2] == p2 && r[e2..e3] == p3
      && r[e3..e4] == p4 && r[e4..e5] == p5 && r[e5..] == p6
  {
  }

  /** The code a client reads back from the envelope is the code that was sent. */
  lemma ResponseJsonCodeRoundTrip(code: int, msg: string, data: string)
    ensures var r := ResponseJson(code, msg, data); var c := |Decimal(code)|;
      && AllDigits(if r[9] == '-' then r[10..9 + c] else r[9..9 + c])
      && ParseDecimal(r[9..9 + c]) == code
  {
    DecimalRoundTrip(code);
    var r := ResponseJson(code, msg, data);
    var c := |Decimal(code)|;
    assert r[9..9 + c] == Decimal(code);
    assert r[9] == Decimal(code)[0];
    if r[9] == '-' {
      assert r[10..9 + c] == Decimal(code)[1..];
    }
  }

  /**
   * Because nothing is escaped, a message that contains the envelope's own
   * punctuation yields the same text as a different message and data.
   */
  lemma ResponseJsonDoesNotEscape()
    ensures exists m1, d1, m2, d2 :: (m1, d1) != (m2, d2) && ResponseJson(0, m1, d1) == ResponseJson(0, m2, d2)
  {
    var sep := "\",\n\"data\":";
    var m1, d1 := "a" + sep + "b", "c";
    var m2, d2 := "a", "b" + sep + "c";
    assert m1 != m2 by { assert |m1| != |m2|; }
    assert ResponseJson(0, m1, d1) == ResponseJson(0, m2, d2);
  }

  // ---------------------------------------------------------------------------
  // normalize_vector
  // ---------------------------------------------------------------------------

  const I32_MIN: int := -0x8000_0000
  const I32_MAX: int := 0x7fff_ffff

  predicate IsI32(x: int)
  {
    I32_MIN <= x <= I32_MAX
  }

  /** Every `i32` value the pager computes stays in range, and the length fits an `i32`. */
  predicate PagerInRange(pageNo: int, pageSize: int, len: nat)
  {
    && IsI32(pageNo) && IsI32(pageSize) && len <= I32_MAX
    && IsI32(pageNo - 1) && IsI32(pageSize * (pageNo - 1))
    && IsI32(pageNo * pageSize) && IsI32(pageNo * pageSize - 1)
  }

  function Min(a: int, b: int): int
  {
    if a < b then a else b
  }

  /**
   * `normalize_vector` as written: `first = page_size*(page_no-1)`,
   * `last = page_no*page_size-1` clamped to the length, and the slice
   * `[first, last)` when `first < len && last > first`, else nothing. A
   * negative `first` reaching the slice is cast to a huge index and the slice
   * panics: `None`.
   */
  function NormalizeVector<T>(pageNo: int, pageSize: int, from: seq<T>): (r: Option<seq<T>>)
    requires PagerInRange(pageNo, pageSize, |from|)
    ensures var first, last := pageSize * (pageNo - 1), Min(pageNo * pageSize - 1, |from|);
      && (r.None? <==> first < 0 && last > first)
      && (r.Some? && r.value != [] ==> 0 <= first < last <= |from| && r.value == from[first..last])
      && (0 <= first < |from| && last > first ==> r == Some(from[first..last]))
      && (first >= |from| || last <= first ==> r == Some([]))
  {
    var first := pageSize * (pageNo - 1);
    var last := if pageNo * pageSize - 1 > |from| then |from| else pageNo * pageSize - 1;
    if first < |from| && last > first then
      if first < 0 then None else Some(from[first..last])
    else
      Some([])
  }

  lemma MulNonNegative(a: int, b: int)
    requires a >= 0 && b >= 0
    ensures a * b >= 0
  {
  }

  /**
   * On a real page (`page_no >= 1`, `page_size >= 0`) the pager never panics,
   * leaves out every element before `page_size*(page_no-1)`, returns a
   * contiguous run of the input in order, and holds at most `page_size - 1`
   * elements; a page past the end is empty.
   */
  lemma NormalizeVectorPage<T>(pageNo: int, pageSize: int, from: seq<T>)
    requires PagerInRange(pageNo, pageSize, |from|)
    requires pageNo >= 1 && pageSize >= 0
    ensures var r := NormalizeVector(pageNo, pageSize, from); var first := pageSize * (pageNo - 1);
      && r.Some?
      && |r.value| <= (if pageSize > 0 then pageSize - 1 else 0)
      && (r.value != [] ==> first + |r.value| <= |from| && r.value == from[first..first + |r.value|])
      && (first >= |from| ==> r.value == [])
  {
    MulNonNegative(pageSize, pageNo - 1);
    assert pageNo * pageSize - 1 == pageSize * (pageNo - 1) + pageSize - 1;
  }

  /** Page 0 of a pager with at least two slots per page panics, whatever the input. */
  lemma NormalizeVectorPageZeroPanics<T>(pageSize: int, from: seq<T>)
    requires PagerInRange(0, pageSize, |from|) && pageSize >= 2
    ensures NormalizeVector(0, pageSize, from).None?
  {
  }

  /**
   * With two slots per page, the second element of a two-element vector is
   * on neither page 1 nor page 2: every page drops its last slot.
   */
  lemma NormalizeVectorDropsLastSlot()
    ensures NormalizeVector(1, 2, [10, 20]) == Some([10])
    ensures NormalizeVector(2, 2, [10, 20]) == Some([])
  {
    assert [10, 20][0..1] == [10];
  }

  /** The pager as evidently intended: page `page_no` is the slice `[size*(no-1), size*no)`, clamped. */
  function Paginate<T>(pageNo: nat, pageSize: nat, from: seq<T>): (r: seq<T>)
    requires pageNo >= 1
    ensures |r| == Min(pageSize, |from| - Min(pageSize * (pageNo - 1), |from|))
  {
    MulNonNegative(pageSize, pageNo - 1);
    var first := pageSize * (pageNo - 1);
    var last := Min(first + pageSize, |from|);
    if first < |from| then from[first..last] else []
  }

  /** Pages `1 .. n` in order. */
  function Pages<T>(pageSize: nat, from: seq<T>, n: nat): seq<T>
  {
    if n == 0 then [] else Pages(pageSize, from, n - 1) + Paginate(n, pageSize, from)
  }

  /** The intended pages tile the input: pages `1 .. n` are exactly its first `n*size` elements. */
  lemma {:induction false} PagesTile<T>(pageSize: nat, from: seq<T>, n: nat)
    ensures Pages(pageSize, from, n) == from[..Min(n * pageSize, |from|)]
  {
    if n > 0 {
      PagesTile(pageSize, from, n - 1);
      var first := pageSize * (n - 1);
      assert (n - 1) * pageSize == first;
      assert n * pageSize == first + pageSize;
      MulNonNegative(pageSize, n - 1);
      var lo := Min(first, |from|);
      var hi := Min(first + pageSize, |from|);
      assert Pages(pageSize, from, n - 1) == from[..lo];
      assert Paginate(n, pageSize, from) == from[lo..hi];
      assert from[..lo] + from[lo..hi] == from[..hi];
    }
  }
}
