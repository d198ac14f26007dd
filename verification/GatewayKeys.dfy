/** The idempotency key a charge call carries to its gateway. */
module GatewayKeys {
  import opened Lifecycle

  function Name(gateway: GatewayProvider): (name: string)
    ensures |name| > 0 && '_' !in name
  {
    match gateway
    case STRIPE => "STRIPE"
    case RAZORPAY => "RAZORPAY"
    case PAYU => "PAYU"
    case UPI => "UPI"
  }

  lemma NamesDiffer(g: GatewayProvider, h: GatewayProvider)
    requires Name(g) == Name(h)
    ensures g == h
  {
    assert |Name(g)| == |Name(h)|;
  }

  /** `${idempotencyKey}_${gateway}` */
  function ChargeKey(key: string, gateway: GatewayProvider): string {
    key + "_" + Name(gateway)
  }

  /** The client's key, an underscore, and the name the gateway has in the enum. */
  lemma ChargeKeyReads(key: string)
    ensures ChargeKey(key, STRIPE) == key + "_STRIPE" && ChargeKey(key, RAZORPAY) == key + "_RAZORPAY"
    ensures ChargeKey(key, PAYU) == key + "_PAYU" && ChargeKey(key, UPI) == key + "_UPI"
  {
    assert "_" + "STRIPE" == "_STRIPE" && "_" + "RAZORPAY" == "_RAZORPAY";
    assert "_" + "PAYU" == "_PAYU" && "_" + "UPI" == "_UPI";
  }

  lemma TailHasLaterOnes(s: string, i: nat, c: char)
    requires i < |s|
    ensures forall j :: i < j < |s| && s[j] == c ==> c in s[i + 1..]
  {
    forall j | i < j < |s| && s[j] == c
      ensures c in s[i + 1..]
    {
      assert s[i + 1..][j - i - 1] == c;
    }
  }

  /** The last underscore separates the two parts, whatever the client's key contains. */
  lemma ChargeKeyIsInjective(key1: string, g1: GatewayProvider, key2: string, g2: GatewayProvider)
    requires ChargeKey(key1, g1) == ChargeKey(key2, g2)
    ensures key1 == key2 && g1 == g2
  {
    var s := ChargeKey(key1, g1);
    assert s[|key1|] == '_' && s[|key2|] == '_';
    assert s[|key1| + 1..] == Name(g1) && s[|key2| + 1..] == Name(g2);
    TailHasLaterOnes(s, |key1|, '_');
    TailHasLaterOnes(s, |key2|, '_');
    assert key1 == s[..|key1|] && key2 == s[..|key2|];
    NamesDiffer(g1, g2);
  }
}
