/** Idempotency keys: a client's name, a dot, and its counter in decimal. */
module JobKeys {
  import opened Decimals

  function Key(client: string, n: nat): string {
    client + "." + Decimal(n)
  }

  /** A key is the client's name, a dot, and the digits of its counter. */
  lemma KeyReads(client: string, n: nat)
    ensures var k := Key(client, n);
      && |k| > |client| + 1 && k[..|client|] == client && k[|client|] == '.'
      && AllDigits(k[|client| + 1..]) && Value(k[|client| + 1..]) == n
  {
    hide Decimal, Value;
    DecimalIsDigits(n);
    DecimalValue(n);
    assert Key(client, n)[|client| + 1..] == Decimal(n);
  }

  /** The last dot parts the name from the counter, whatever the name is made of. */
  lemma KeysDiffer(c: string, m: nat, d: string, n: nat)
    requires Key(c, m) == Key(d, n)
    ensures c == d && m == n
  {
    hide Decimal;
    var k, a, b := Key(c, m), Decimal(m), Decimal(n);
    DecimalIsDigits(m);
    DecimalIsDigits(n);
    assert k[|c|] == '.' && k[|d|] == '.';
    assert forall i :: |c| < i < |k| ==> k[i] == a[i - |c| - 1];
    assert forall i :: |d| < i < |k| ==> k[i] == b[i - |d| - 1];
    assert |c| == |d|;
    assert c == k[..|c|] == d;
    assert a == k[|c| + 1..] == b;
    DecimalInjective(m, n);
  }
}
