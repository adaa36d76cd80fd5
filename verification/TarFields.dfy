/** Numeric fields of a tar header: octal ASCII, and the GNU base-256 form for sizes of 8 GiB and more. */
module TarFields {
  import opened Domain

  const OCTAL_SIZE_LIMIT := 8589934591
  const BASE256_SIZE_LIMIT := 309485009821345068724781056

  /** The two bases of a numeric field. */
  datatype Base = Eight | TwoFiftySix {
    function Times(v: nat): nat {
      if Eight? then 8 * v else 256 * v
    }

    function Quotient(v: nat): nat {
      if Eight? then v / 8 else v / 256
    }

    function Remainder(v: nat): (r: nat)
      ensures r < if Eight? then 8 else 256
    {
      if Eight? then v % 8 else v % 256
    }

    /** How many values fit in `n` digits. */
    function Capacity(n: nat): nat {
      if n == 0 then 1 else Times(Capacity(n - 1))
    }

    /** The `n` least significant digits of `v`, most significant first. */
    function Digits(v: nat, n: nat): (r: seq<nat>)
      ensures |r| == n && forall k :: 0 <= k < n ==> r[k] < if Eight? then 8 else 256
      decreases n
    {
      if n == 0 then [] else Digits(Quotient(v), n - 1) + [Remainder(v)]
    }

    function Value(digits: seq<nat>): nat {
      if digits == [] then 0 else Times(Value(digits[..|digits| - 1])) + digits[|digits| - 1]
    }

    lemma {:induction false} DigitsValue(v: nat, n: nat)
      requires v < Capacity(n)
      ensures Value(Digits(v, n)) == v
      decreases n
    {
      if n > 0 {
        DigitsValue(Quotient(v), n - 1);
        assert Digits(v, n)[..n - 1] == Digits(Quotient(v), n - 1);
      }
    }
  }

  lemma Capacities()
    ensures Eight.Capacity(6) == 262144 && Eight.Capacity(7) == 2097152
    ensures Eight.Capacity(11) == OCTAL_SIZE_LIMIT + 1
    ensures TwoFiftySix.Capacity(11) == BASE256_SIZE_LIMIT
  {
    assert Eight.Capacity(2) == 64 && Eight.Capacity(4) == 4096;
    assert Eight.Capacity(8) == 16777216 && Eight.Capacity(10) == 1073741824;
    assert TwoFiftySix.Capacity(2) == 65536 && TwoFiftySix.Capacity(4) == 4294967296;
    assert TwoFiftySix.Capacity(6) == 281474976710656 && TwoFiftySix.Capacity(8) == 18446744073709551616;
    assert TwoFiftySix.Capacity(10) == 1208925819614629174706176;
  }

  predicate IsOctal(c: byte) {
    0x30 <= c <= 0x37
  }

  predicate IsBlank(c: byte) {
    c == 0 || c == 0x20
  }

  predicate AllOctal(s: seq<byte>) {
    forall k :: 0 <= k < |s| ==> IsOctal(s[k])
  }

  predicate AllBlank(s: seq<byte>) {
    forall k :: 0 <= k < |s| ==> IsBlank(s[k])
  }

  function Ascii(digits: seq<nat>): (r: seq<byte>)
    requires forall k :: 0 <= k < |digits| ==> digits[k] < 8
    ensures |r| == |digits| && AllOctal(r)
  {
    seq(|digits|, k requires 0 <= k < |digits| => digits[k] + 0x30)
  }

  function Octal(v: nat, n: nat): (r: seq<byte>)
    ensures |r| == n && AllOctal(r)
  {
    Ascii(Eight.Digits(v, n))
  }

  function OctalValue(s: seq<byte>): nat
    requires AllOctal(s)
  {
    Eight.Value(seq(|s|, k requires 0 <= k < |s| && AllOctal(s) => s[k] - 0x30))
  }

  lemma OctalRoundTrip(v: nat, n: nat)
    requires v < Eight.Capacity(n)
    ensures OctalValue(Octal(v, n)) == v
  {
    Eight.DigitsValue(v, n);
    var s := Octal(v, n);
    assert seq(|s|, k requires 0 <= k < |s| && AllOctal(s) => s[k] - 0x30) == Eight.Digits(v, n);
  }

  lemma OctalValueSnoc(s: seq<byte>, c: byte)
    requires AllOctal(s) && IsOctal(c)
    ensures AllOctal(s + [c]) && OctalValue(s + [c]) == OctalValue(s) * 8 + (c - 0x30)
  {
    var t := s + [c];
    var digits := seq(|t|, k requires 0 <= k < |t| && AllOctal(t) => t[k] - 0x30);
    assert digits[..|s|] == seq(|s|, k requires 0 <= k < |s| && AllOctal(s) => s[k] - 0x30);
  }

  function LeadingDigits(s: seq<byte>): (k: nat)
    ensures k <= |s| && AllOctal(s[..k]) && (k < |s| ==> !IsOctal(s[k]))
  {
    if s == [] || !IsOctal(s[0]) then 0
    else
      var k := LeadingDigits(s[1..]);
      assert s[..k + 1] == [s[0]] + s[1..][..k];
      k + 1
  }

  /** A field is digits, at least one, then NULs and spaces; its value is the base-8 number those digits write. */
  function ParseOctal(field: seq<byte>): Option<nat> {
    var k := LeadingDigits(field);
    if k > 0 && AllBlank(field[k..]) then Some(OctalValue(field[..k])) else None
  }

  lemma LeadingDigitsOf(s: seq<byte>, k: nat)
    requires k <= |s| && AllOctal(s[..k]) && (k < |s| ==> !IsOctal(s[k]))
    ensures LeadingDigits(s) == k
  {
    var m := LeadingDigits(s);
    assert forall j :: 0 <= j < k ==> IsOctal(s[..k][j]) && IsOctal(s[j]);
    assert forall j :: 0 <= j < m ==> IsOctal(s[..m][j]) && IsOctal(s[j]);
  }

  lemma FieldRoundTrip(v: nat, n: nat)
    requires n > 0 && v < Eight.Capacity(n)
    ensures ParseOctal(Octal(v, n) + [0]) == Some(v)
  {
    var field := Octal(v, n) + [0];
    assert field[..n] == Octal(v, n);
    LeadingDigitsOf(field, n);
    OctalRoundTrip(v, n);
  }

  /** `parseOctalField`, one pass with a `terminated` flag. */
  method ParseOctalField(field: seq<byte>) returns (r: Option<nat>)
    ensures r == ParseOctal(field)
  {
    var value: nat, digits: nat, terminated := 0, 0, false;
    for k := 0 to |field|
      invariant digits <= k && AllOctal(field[..digits]) && value == OctalValue(field[..digits])
      invariant terminated <==> digits < k
      invariant AllBlank(field[digits..k])
    {
      var c := field[k];
      if !terminated && 0x30 <= c <= 0x37 {
        assert field[..k + 1] == field[..k] + [c];
        OctalValueSnoc(field[..k], c);
        value := value * 8 + (c - 0x30);
        digits := digits + 1;
      } else if c == 0 || c == 0x20 {
        assert field[digits..k + 1] == field[digits..k] + [c];
        terminated := true;
      } else {
        NotBlankAfter(field, digits, k);
        return None;
      }
    }
    if digits < |field| {
      assert IsBlank(field[digits..][0]);
    }
    LeadingDigitsOf(field, digits);
    r := if digits == 0 then None else Some(value);
  }

  lemma NotBlankAfter(field: seq<byte>, digits: nat, k: nat)
    requires digits <= k < |field| && AllOctal(field[..digits]) && AllBlank(field[digits..k])
    requires digits < k || !IsOctal(field[k])
    requires !IsBlank(field[k])
    ensures ParseOctal(field).None?
  {
    if digits < k {
      assert IsBlank(field[digits..k][0]);
    }
    LeadingDigitsOf(field, digits);
    assert field[digits..][k - digits] == field[k];
  }

  function Base256(v: nat, n: nat): (r: seq<byte>)
    ensures |r| == n
  {
    var digits := TwoFiftySix.Digits(v, n);
    seq(n, k requires 0 <= k < n => digits[k])
  }

  function Base256Value(s: seq<byte>): nat {
    TwoFiftySix.Value(seq(|s|, k requires 0 <= k < |s| => s[k]))
  }

  /** `encodeTarSize`; none stands for the `RangeError`. */
  function EncodeSize(size: nat): (r: Option<seq<byte>>)
    ensures r.Some? <==> size < BASE256_SIZE_LIMIT
    ensures r.Some? ==> |r.value| == 12
  {
    if size <= OCTAL_SIZE_LIMIT then Some(Octal(size, 11) + [0])
    else if size >= BASE256_SIZE_LIMIT then None
    else Some([0x80] + Base256(size, 11))
  }

  function ParseSize(field: seq<byte>): Option<nat> {
    if |field| != 12 then None
    else if field[0] >= 0x80 then
      if field[0] != 0x80 then None else Some(Base256Value(field[1..]))
    else ParseOctal(field)
  }

  /** Every size the writer can encode reads back, on both sides of 8 GiB. */
  lemma SizeRoundTrip(size: nat)
    requires size < BASE256_SIZE_LIMIT
    ensures ParseSize(EncodeSize(size).value) == Some(size)
  {
    Capacities();
    var field := EncodeSize(size).value;
    if size <= OCTAL_SIZE_LIMIT {
      FieldRoundTrip(size, 11);
      assert IsOctal(field[0]);
    } else {
      TwoFiftySix.DigitsValue(size, 11);
      var s := Base256(size, 11);
      assert field[1..] == s;
      assert seq(|s|, k requires 0 <= k < |s| => s[k] as nat) == TwoFiftySix.Digits(size, 11);
    }
  }

  /** Fills a field from its last digit to its first, dropping one digit of the value at each step. */
  method WriteDigits(field: array<byte>, from: nat, n: nat, value: nat, base: Base, zero: byte)
    requires from + n <= field.Length && zero == if base.Eight? then 0x30 else 0
    modifies field
    ensures forall k :: 0 <= k < n ==> field[from + k] == base.Digits(value, n)[k] + zero
    ensures forall k :: 0 <= k < field.Length && !(from <= k < from + n) ==> field[k] == old(field[k])
  {
    var rest := value;
    var k := n;
    while k > 0
      invariant 0 <= k <= n
      invariant base.Digits(value, n)[..k] == base.Digits(rest, k)
      invariant forall j :: k <= j < n ==> field[from + j] == base.Digits(value, n)[j] + zero
      invariant forall j :: 0 <= j < field.Length && !(from <= j < from + n) ==> field[j] == old(field[j])
    {
      k := k - 1;
      assert base.Digits(value, n)[k] == base.Digits(value, n)[..k + 1][k];
      field[from + k] := base.Remainder(rest) + zero;
      assert base.Digits(value, n)[..k] == base.Digits(value, n)[..k + 1][..k];
      rest := base.Quotient(rest);
    }
  }

  method EncodeTarSize(size: nat) returns (r: Option<seq<byte>>)
    ensures r == EncodeSize(size)
  {
    if size >= BASE256_SIZE_LIMIT { return None; }
    var field := new byte[12](_ => 0);
    if size <= OCTAL_SIZE_LIMIT {
      WriteDigits(field, 0, 11, size, Eight, 0x30);
      assert field[..] == Octal(size, 11) + [0];
    } else {
      field[0] := 0x80;
      WriteDigits(field, 1, 11, size, TwoFiftySix, 0);
      assert field[..] == [0x80] + Base256(size, 11);
    }
    r := Some(field[..]);
  }
}
