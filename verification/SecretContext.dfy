/** The context that binds a ciphertext to its tenant, secret and version, and when two of them coincide. */
module SecretContext {

  function Digit(n: nat): char
    requires n < 10
  {
    '0' + n as char
  }

  /** `str(n)`. */
  function Decimal(n: nat): string {
    if n < 10 then [Digit(n)] else Decimal(n / 10) + [Digit(n % 10)]
  }

  function Value(s: string): int {
    if s == [] then 0 else 10 * Value(s[..|s| - 1]) + (s[|s| - 1] as int - '0' as int)
  }

  const PREFIX := "ilaios|"

  /** `_context`. */
  function Context(secret: string, tenant: string, version: nat): string {
    PREFIX + tenant + "|" + secret + "|" + Decimal(version)
  }

  predicate Plain(s: string) { '|' !in s }

  lemma {:induction false} DecimalShape(n: nat)
    ensures Plain(Decimal(n)) && Decimal(n) != "" && Value(Decimal(n)) == n
  {
    if n >= 10 {
      DecimalShape(n / 10);
      var d := Decimal(n / 10) + [Digit(n % 10)];
      assert d[..|d| - 1] == Decimal(n / 10);
    } else {
      assert [Digit(n)][..0] == [];
    }
  }

  /** With nothing but plain text after it, the joining bar is the last one; with plain text before it, the first. */
  lemma BarPlace(a: string, b: string)
    ensures var whole := a + "|" + b;
            && whole[|a|] == '|' && whole[..|a|] == a && whole[|a| + 1..] == b
            && (Plain(b) ==> forall i :: |a| < i < |whole| ==> whole[i] != '|')
            && (Plain(a) ==> forall i :: 0 <= i < |a| ==> whole[i] != '|')
  {
    var whole := a + "|" + b;
    assert forall i :: |a| < i < |whole| ==> whole[i] == b[i - |a| - 1];
  }

  lemma LastBar(a: string, b: string, c: string, d: string)
    requires Plain(b) && Plain(d) && a + "|" + b == c + "|" + d
    ensures a == c && b == d
  {
    BarPlace(a, b);
    BarPlace(c, d);
    assert |a| == |c|;
  }

  lemma FirstBar(a: string, b: string, c: string, d: string)
    requires Plain(a) && Plain(c) && a + "|" + b == c + "|" + d
    ensures a == c && b == d
  {
    BarPlace(a, b);
    BarPlace(c, d);
    assert |a| == |c|;
  }

  /** Two contexts are equal exactly when the versions are, and tenant and secret read the same once joined by a bar. */
  lemma ContextsEqualExactly(secret: string, tenant: string, version: nat, secret': string, tenant': string, version': nat)
    ensures Context(secret, tenant, version) == Context(secret', tenant', version')
       <==> version == version' && tenant + "|" + secret == tenant' + "|" + secret'
  {
    var left, right := PREFIX + (tenant + "|" + secret), PREFIX + (tenant' + "|" + secret');
    assert Context(secret, tenant, version) == left + "|" + Decimal(version);
    assert Context(secret', tenant', version') == right + "|" + Decimal(version');
    DecimalShape(version);
    DecimalShape(version');
    if Context(secret, tenant, version) == Context(secret', tenant', version') {
      LastBar(left, Decimal(version), right, Decimal(version'));
      assert tenant + "|" + secret == left[|PREFIX|..] && tenant' + "|" + secret' == right[|PREFIX|..];
    }
  }

  /** So contexts are injective as soon as tenants, or else secrets, are free of bars. */
  lemma ContextInjective(secret: string, tenant: string, version: nat, secret': string, tenant': string, version': nat)
    requires (Plain(tenant) && Plain(tenant')) || (Plain(secret) && Plain(secret'))
    requires Context(secret, tenant, version) == Context(secret', tenant', version')
    ensures secret == secret' && tenant == tenant' && version == version'
  {
    ContextsEqualExactly(secret, tenant, version, secret', tenant', version');
    if Plain(tenant) && Plain(tenant') {
      FirstBar(tenant, secret, tenant', secret');
    } else {
      LastBar(tenant, secret, tenant', secret');
    }
    hide Context;
  }

  /** A bar on both sides breaks it: it can move from the tenant to the secret. */
  lemma BarsCollide(a: string, b: string, c: string, version: nat)
    ensures Context(c, a + "|" + b, version) == Context(b + "|" + c, a, version)
  {
    ContextsEqualExactly(c, a + "|" + b, version, b + "|" + c, a, version);
    assert (a + "|" + b) + "|" + c == a + "|" + (b + "|" + c);
  }
}
