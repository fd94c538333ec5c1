/**
 The lease token. What the database keeps is the digest of `secret|job|attempt|credential`,
 so a token proves itself for one job, one attempt and one credential only.
 */
module LeaseToken {
  import opened Common
  import opened Text

  /** What a token is bound to; ids are uuids, so they hold no `|`. */
  datatype Binding = Binding(job: string, attempt: nat, credential: string)

  /** A SHA-256 digest, taken as an injective function of the text it digests. */
  datatype Digest = Digest(text: string)

  const MAX_TOKEN_LENGTH := 512

  predicate BarFree(b: Binding) { '|' !in b.job && '|' !in b.credential }

  /** `bindingDigest`. */
  function BindingDigest(secret: string, b: Binding): Digest
  {
    Digest(secret + ("|" + (b.job + ("|" + (Decimal(b.attempt) + ("|" + b.credential))))))
  }

  /** `verifyLeaseToken`. */
  predicate Verify(token: string, stored: Option<Digest>, b: Binding)
  {
    stored.Some? && 0 < |token| <= MAX_TOKEN_LENGTH && BindingDigest(token, b) == stored.value
  }

  /** A text splits in one way only around its last bar. */
  lemma LastBarSplits(a: string, x: string, b: string, y: string)
    requires a + ("|" + x) == b + ("|" + y) && '|' !in x && '|' !in y
    ensures a == b && x == y
  {
    var s := a + ("|" + x);
    assert s[|a|] == '|' && s[|b|] == '|';
    SameSplit(a, "|" + x, b, "|" + y);
    assert x == ("|" + x)[1..] && y == ("|" + y)[1..];
  }

  lemma NoBarInDecimal(n: nat)
    ensures '|' !in Decimal(n)
  {
    DecimalDigits(n);
  }

  /** The digest tells secret, job, attempt and credential apart, even for a secret full of bars. */
  lemma BindingIsInjective(secret: string, b: Binding, other: string, c: Binding)
    requires BarFree(b) && BarFree(c) && BindingDigest(secret, b) == BindingDigest(other, c)
    ensures secret == other && b == c
  {
    var (p, q) := (secret + ("|" + b.job), other + ("|" + c.job));
    assert BindingDigest(secret, b).text == (p + ("|" + Decimal(b.attempt))) + ("|" + b.credential);
    assert BindingDigest(other, c).text == (q + ("|" + Decimal(c.attempt))) + ("|" + c.credential);
    LastBarSplits(p + ("|" + Decimal(b.attempt)), b.credential, q + ("|" + Decimal(c.attempt)), c.credential);
    NoBarInDecimal(b.attempt);
    NoBarInDecimal(c.attempt);
    LastBarSplits(p, Decimal(b.attempt), q, Decimal(c.attempt));
    LastBarSplits(secret, b.job, other, c.job);
    DecimalIsInjective(b.attempt, c.attempt);
  }

  /** What is digested, read from left to right. */
  lemma DigestedText(secret: string, b: Binding)
    ensures BindingDigest(secret, b).text == secret + "|" + b.job + "|" + Decimal(b.attempt) + "|" + b.credential
  {
    var (x, y) := (Decimal(b.attempt) + ("|" + b.credential), b.job + ("|" + (Decimal(b.attempt) + ("|" + b.credential))));
    assert x == Decimal(b.attempt) + "|" + b.credential;
    assert y == b.job + "|" + x;
    assert BindingDigest(secret, b).text == secret + "|" + y;
  }

  /** A token verifies against a stored hash exactly for the secret and the binding it was minted with. */
  lemma VerifiesOnlyItsOwn(minted: string, b: Binding, token: string, c: Binding)
    requires BarFree(b) && BarFree(c)
    ensures Verify(token, Some(BindingDigest(minted, b)), c) <==> token == minted && c == b && 0 < |token| <= 512
    ensures !Verify(token, None, c)
  {
    if BindingDigest(token, c) == BindingDigest(minted, b) { BindingIsInjective(token, c, minted, b); }
  }
}
