/** Decoded JSON, and the text of graph paths. */
module Json {
  datatype Json =
    | JNull
    | JBool(flag: bool)
    | JNum(digits: string)
    | JStr(text: string)
    | JObj(fields: map<string, Json>)
    | JArr(items: seq<Json>)

  function Digit(d: nat): char
    requires d < 10
  {
    ['0', '1', '2', '3', '4', '5', '6', '7', '8', '9'][d]
  }

  predicate IsDigit(c: char) { '0' <= c <= '9' }

  /** Decimal text of a number. */
  function Itoa(n: nat): (s: string)
    ensures |s| > 0 && forall i :: 0 <= i < |s| ==> IsDigit(s[i])
  {
    if n < 10 then [Digit(n)] else Itoa(n / 10) + [Digit(n % 10)]
  }

  lemma {:induction false} ItoaInjective(m: nat, n: nat)
    requires Itoa(m) == Itoa(n)
    ensures m == n
  {
    if m >= 10 && n >= 10 {
      assert Itoa(m)[..|Itoa(m)| - 1] == Itoa(m / 10) && Itoa(n)[..|Itoa(n)| - 1] == Itoa(n / 10);
      ItoaInjective(m / 10, n / 10);
      assert Itoa(m)[|Itoa(m)| - 1] == Itoa(n)[|Itoa(n)| - 1];
    } else {
      assert |Itoa(m)| == |Itoa(n)|;
    }
  }
}
