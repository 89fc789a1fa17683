/** The identifiers the connector invents for tool calls that carry none:
    the function name, an underscore and the call's position in decimal. */
module ToolCallIds {

  /** The decimal digit for `d`. */
  function DigitChar(d: nat): (c: char)
    requires d < 10
    ensures '0' <= c <= '9'
  {
    ('0' as int + d) as char
  }

  /** The number a string of decimal digits denotes, most significant digit first. */
  function DecimalValue(s: string): nat
    requires forall k :: 0 <= k < |s| ==> '0' <= s[k] <= '9'
  {
    if s == [] then 0
    else DecimalValue(s[..|s| - 1]) * 10 + (s[|s| - 1] as int - '0' as int)
  }

  /** `n` in decimal without leading zeros, as C# formats a non-negative int:
      the digits denote `n`, and only zero itself starts with a zero. */
  function NatToDecimal(n: nat): (s: string)
    ensures |s| >= 1
    ensures (|s| == 1) == (n < 10)
    ensures forall k :: 0 <= k < |s| ==> '0' <= s[k] <= '9'
    ensures DecimalValue(s) == n
    ensures s[0] == '0' ==> n == 0
  {
    if n < 10 then [DigitChar(n)]
    else
      var s := NatToDecimal(n / 10) + [DigitChar(n % 10)];
      assert s[..|s| - 1] == NatToDecimal(n / 10);
      s
  }

  /** Distinct numbers have distinct decimal spellings. */
  lemma NatToDecimalInjective(a: nat, b: nat)
    requires NatToDecimal(a) == NatToDecimal(b)
    ensures a == b
  {
    assert DecimalValue(NatToDecimal(a)) == a && DecimalValue(NatToDecimal(b)) == b;
  }

  /** The fallback id `FunctionName_i` of the tool call at position `i`. */
  function FallbackId(functionName: string, i: nat): string {
    functionName + "_" + NatToDecimal(i)
  }

  /** A two-digit position is spelled most significant digit first. */
  lemma FallbackIdOfTen(f: string)
    ensures FallbackId(f, 10) == f + "_10"
  {
    assert NatToDecimal(1) == "1" && NatToDecimal(10) == NatToDecimal(1) + "0";
  }

  /** The position of the last underscore in `s`, or -1 when there is none. */
  function LastUnderscore(s: string): (k: int)
    ensures -1 <= k < |s|
  {
    if s == [] then -1
    else if s[|s| - 1] == '_' then |s| - 1
    else LastUnderscore(s[..|s| - 1])
  }

  /** The last underscore of `p + "_" + d` is the one after `p` when `d` has none. */
  lemma {:induction false} LastUnderscoreOfJoin(p: string, d: string)
    requires forall k :: 0 <= k < |d| ==> d[k] != '_'
    ensures LastUnderscore(p + "_" + d) == |p|
  {
    var s := p + "_" + d;
    if d != [] {
      var d' := d[..|d| - 1];
      assert s[..|s| - 1] == p + "_" + d';
      LastUnderscoreOfJoin(p, d');
    }
  }

  /** A fallback id determines both the function name and the position: the
      decimal part holds no underscore, so the last underscore separates them. */
  lemma FallbackIdInjective(f: string, i: nat, g: string, j: nat)
    requires FallbackId(f, i) == FallbackId(g, j)
    ensures f == g && i == j
  {
    var s, di, dj := FallbackId(f, i), NatToDecimal(i), NatToDecimal(j);
    LastUnderscoreOfJoin(f, di);
    LastUnderscoreOfJoin(g, dj);
    assert f == s[..|f|] && g == s[..|g|];
    assert di == s[|f| + 1..] && dj == s[|g| + 1..];
    NatToDecimalInjective(i, j);
  }
}
