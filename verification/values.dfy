/**
 Values shared by the whole model: optional and fallible results, the
 dynamically typed values a caller hands to the builder (Go's `interface{}`),
 their `%v` text rendering, and the `add` helper that appends rendered values
 to a per-key list (http_client.go:50-59).
 */
module Values {

  /** A value that may be absent; stands for Go's nil references. */
  datatype Option<+T> = None | Some(value: T)

  /** The result of a step that may fail with an error of type E. */
  datatype Result<+T, +E> = Success(value: T) | Failure(error: E)

  /** A byte of a request body. */
  newtype byte = x: int | 0 <= x < 256

  /**
   A Go map value with string keys. Unlike a Dafny map it may be nil: reading
   a nil map finds nothing, but storing into one panics.
   */
  datatype Dict<V> = NilDict | Dict(entries: map<string, V>)

  /** The keys a map holds; a nil map holds none. */
  function Keys<V>(d: Dict<V>): set<string>
  {
    match d
    case NilDict => {}
    case Dict(entries) => entries.Keys
  }

  /**
   The values stored under `key` in a map of lists. Go yields a nil slice for a
   missing key or a nil map, and a nil slice behaves as the empty list.
   */
  function ListAt(d: Dict<seq<string>>, key: string): (r: seq<string>)
    ensures key !in Keys(d) ==> r == []
    ensures key in Keys(d) ==> r == d.entries[key]
  {
    match d
    case NilDict => []
    case Dict(entries) => if key in entries then entries[key] else []
  }

  /**
   A dynamically typed value handed to `AddParam`, `AddQuery`, `AddHeader`,
   `AddForm` or `Records`. Only the kinds whose `%v` rendering the model spells
   out are represented.
   */
  datatype Value = Nil | Text(text: string) | Int(number: int) | Bool(flag: bool)

  predicate IsDigit(ch: char)
  {
    '0' <= ch <= '9'
  }

  function DigitChar(d: nat): (ch: char)
    requires d < 10
    ensures IsDigit(ch)
    ensures ch as int - '0' as int == d
  {
    "0123456789"[d]
  }

  function DigitValue(ch: char): (d: nat)
    requires IsDigit(ch)
    ensures d < 10
  {
    ch as int - '0' as int
  }

  /** Decimal digits of a natural number, most significant first. */
  function Digits(n: nat): (s: string)
    ensures 1 <= |s|
    ensures forall i :: 0 <= i < |s| ==> IsDigit(s[i])
    ensures 1 < |s| ==> s[0] != '0'
    ensures s[0] == '0' <==> n == 0
  {
    if n < 10 then [DigitChar(n)] else Digits(n / 10) + [DigitChar(n % 10)]
  }

  /**
   The only text `%v` prints for an integer: a minus sign exactly for a
   negative number, then digits with no leading zero (and no "-0").
   */
  predicate CanonicalDecimal(s: string)
  {
    if 1 <= |s| && s[0] == '-' then AllDigits(s[1..]) && s[1] != '0'
    else AllDigits(s) && (1 < |s| ==> s[0] != '0')
  }

  /** `%v` of an integer: an optional minus sign followed by its digits. */
  function Decimal(i: int): (s: string)
    ensures CanonicalDecimal(s)
    ensures 1 <= |s| && (s[0] == '-' <==> i < 0)
  {
    if i < 0 then "-" + Digits(-i) else Digits(i)
  }

  /** A non-empty string of decimal digits. */
  predicate AllDigits(s: string)
  {
    1 <= |s| && forall i :: 0 <= i < |s| ==> IsDigit(s[i])
  }

  /** Reads back a non-empty string of decimal digits. */
  function ParseDigits(s: string): nat
    requires AllDigits(s)
  {
    if |s| == 1 then DigitValue(s[0])
    else ParseDigits(s[..|s| - 1]) * 10 + DigitValue(s[|s| - 1])
  }

  /** Reads back an optionally signed decimal integer; None when malformed. */
  function ParseDecimal(s: string): Option<int>
  {
    if 1 <= |s| && s[0] == '-' && AllDigits(s[1..]) then
      var magnitude: int := ParseDigits(s[1..]);
      Some(-magnitude)
    else if AllDigits(s) then
      Some(ParseDigits(s))
    else
      None
  }

  /** The text `fmt.Sprintf("%v", v)` produces for each modelled kind of value. */
  function Render(v: Value): (r: string)
    ensures v.Nil? ==> r == "<nil>"
    ensures v.Text? ==> r == v.text
    ensures v.Int? ==> ParseDecimal(r) == Some(v.number)
    ensures v.Int? ==> CanonicalDecimal(r) && 1 <= |r| && (r[0] == '-' <==> v.number < 0)
    ensures v.Bool? ==> (r == "true" <==> v.flag) && (r == "false" <==> !v.flag)
  {
    match v
    case Nil => "<nil>"
    case Text(s) => s
    case Int(i) => DecimalRoundTrip(i); Decimal(i)
    case Bool(b) => if b then "true" else "false"
  }

  lemma {:induction false} DigitsRoundTrip(n: nat)
    ensures ParseDigits(Digits(n)) == n
  {
    if n >= 10 {
      var s := Digits(n);
      assert s[..|s| - 1] == Digits(n / 10);
      DigitsRoundTrip(n / 10);
    }
  }

  /** Rendering an integer loses nothing: its text reads back as the same number. */
  lemma DecimalRoundTrip(i: int)
    ensures ParseDecimal(Decimal(i)) == Some(i)
  {
    var s := Decimal(i);
    if i < 0 {
      assert s[1..] == Digits(-i);
      assert !AllDigits(s) by { assert !IsDigit(s[0]); }
      DigitsRoundTrip(-i);
    } else {
      assert s[0] != '-' by { assert IsDigit(s[0]); }
      DigitsRoundTrip(i);
    }
  }

  /** Distinct integers render to distinct texts. */
  lemma RenderIntInjective(i: int, j: int)
    requires Render(Int(i)) == Render(Int(j))
    ensures i == j
  {
    DecimalRoundTrip(i);
    DecimalRoundTrip(j);
  }

  /** `after` is `before` followed by the rendering of each value, in order. */
  predicate Appended(before: seq<string>, values: seq<Value>, after: seq<string>)
  {
    && |after| == |before| + |values|
    && after[..|before|] == before
    && forall i :: 0 <= i < |values| ==> after[|before| + i] == Render(values[i])
  }

  /**
   The `add` helper: `current` (nil behaving as empty) followed by the
   rendering of each value, appended one at a time in argument order.
   */
  function Add(current: seq<string>, values: seq<Value>): (r: seq<string>)
    ensures Appended(current, values, r)
    decreases |values|
  {
    if values == [] then current
    else Add(current + [Render(values[0])], values[1..])
  }

  /** Two successive `add` calls equal one call with the values concatenated. */
  lemma AddConcat(current: seq<string>, first: seq<Value>, second: seq<Value>)
    ensures Add(Add(current, first), second) == Add(current, first + second)
  {
    var a := Add(Add(current, first), second);
    var b := Add(current, first + second);
    assert |a| == |b|;
    forall k | 0 <= k < |a|
      ensures a[k] == b[k]
    {
      var mid := Add(current, first);
      if k < |current| {
        assert a[k] == mid[..|current|][k];
      } else if k < |current| + |first| {
        assert a[k] == mid[..|mid|][k];
        assert mid[k] == Render(first[k - |current|]);
        assert (first + second)[k - |current|] == first[k - |current|];
      } else {
        assert a[k] == Render(second[k - |mid|]);
        assert (first + second)[k - |current|] == second[k - |mid|];
      }
    }
  }
}
