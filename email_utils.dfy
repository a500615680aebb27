/** The business-email check of lib/email-utils.ts: an address is a business
    address when the part after its first '@' is present and, lower-cased, is
    not one of the listed free providers. */
module EmailUtils {
  import opened Common
  import opened Strings

  /** The free providers, in the source's order. */
  const FreeEmailProviders: seq<string> := [
    "gmail.com", "yahoo.com", "hotmail.com", "outlook.com", "live.com",
    "aol.com", "icloud.com", "mail.com", "protonmail.com", "yandex.com",
    "zoho.com", "gmx.com", "mail.ru"
  ]

  predicate NoAt(s: string) {
    forall i :: 0 <= i < |s| ==> s[i] != '@'
  }

  /** `email.split('@')[1]?.toLowerCase()`: the second '@'-segment, lower-cased,
      or nothing when the address has no '@'. */
  function Domain(email: string): Option<string> {
    var parts := Split(email, '@');
    if |parts| >= 2 then Some(Lower(parts[1])) else None
  }

  function IsBusinessEmail(email: string): bool {
    match Domain(email)
    case None => false
    case Some(d) => d != "" && d !in FreeEmailProviders
  }

  /** For `local@rest` with an '@'-free local part, the domain is the start of
      `rest` up to its next '@', lower-cased. */
  lemma DomainOf(local: string, rest: string)
    requires NoAt(local)
    ensures Domain(local + "@" + rest) == Some(Lower(Split(rest, '@')[0]))
  {
    SplitAfterFirst(local, '@', rest);
  }

  /** An address with no '@' is never a business address. */
  lemma NoAtIsNotBusiness(email: string)
    requires NoAt(email)
    ensures !IsBusinessEmail(email)
  {
    SplitNoSep(email, '@');
  }

  /** The whole contract: `local@rest` is a business address exactly when its
      lower-cased domain segment is non-empty and is not exactly a listed
      provider. */
  lemma IsBusinessEmailIff(local: string, rest: string)
    requires NoAt(local)
    ensures IsBusinessEmail(local + "@" + rest) <==>
      var d := Lower(Split(rest, '@')[0]);
      d != "" && d !in FreeEmailProviders
  {
    DomainOf(local, rest);
  }

  /** An empty domain segment (`x@` or `x@@y`) is not a business address. */
  lemma EmptyDomainIsNotBusiness(local: string, rest: string)
    requires NoAt(local)
    requires rest == [] || rest[0] == '@'
    ensures !IsBusinessEmail(local + "@" + rest)
  {
    DomainOf(local, rest);
    if rest != [] {
      assert Split(rest, '@')[0] == "";
    }
  }

  /** The local part never affects the result. */
  lemma LocalPartIrrelevant(local1: string, local2: string, rest: string)
    requires NoAt(local1) && NoAt(local2)
    ensures IsBusinessEmail(local1 + "@" + rest) == IsBusinessEmail(local2 + "@" + rest)
  {
    DomainOf(local1, rest);
    DomainOf(local2, rest);
  }

  /** The case of an '@'-free domain does not matter. */
  lemma DomainCaseIrrelevant(local: string, domain: string)
    requires NoAt(local) && NoAt(domain)
    ensures IsBusinessEmail(local + "@" + domain) == IsBusinessEmail(local + "@" + Lower(domain))
  {
    assert NoAt(Lower(domain));
    DomainOf(local, domain);
    DomainOf(local, Lower(domain));
    SplitNoSep(domain, '@');
    SplitNoSep(Lower(domain), '@');
    LowerIdempotent(domain);
  }

  /** Whether an '@'-free domain is accepted depends only on its lower-cased
      form and the list. */
  lemma DomainVerdict(local: string, domain: string)
    requires NoAt(local) && NoAt(domain)
    ensures IsBusinessEmail(local + "@" + domain) <==>
      Lower(domain) != "" && Lower(domain) !in FreeEmailProviders
  {
    DomainOf(local, domain);
    SplitNoSep(domain, '@');
  }

  /** Membership is exact, not a suffix test: a subdomain of a listed
      provider is a business domain. */
  lemma SubdomainIsBusiness(local: string, sub: string)
    requires NoAt(local)
    requires sub == "mail.gmail.com"
    ensures IsBusinessEmail(local + "@" + sub)
  {
    assert NoAt(sub);
    LowerOfLowerCase(sub);
    DomainVerdict(local, sub);
  }

  /** The provider itself is recognised in any letter case. */
  lemma ProviderInAnyCase(local: string, mixed: string)
    requires NoAt(local)
    requires mixed == "GMail.com"
    ensures !IsBusinessEmail(local + "@" + mixed)
  {
    assert Lower(mixed) == "gmail.com" by {
      assert Lower(mixed)[0] == 'g';
      assert Lower(mixed)[1] == 'm';
    }
    DomainVerdict(local, mixed);
  }

}
