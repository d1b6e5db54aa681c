/** The provider side of brokered sign-in: supported providers and GitHub's address selection. */
module Upstream {
  import opened Prelude
  import Text

  predicate IsSupported(provider: string) {
    provider == "google" || provider == "github"
  }

  /** The normalised identity returned by an exchange. */
  datatype Identity = Identity(provider: string, subject: string, email: string, emailVerified: bool, name: string)

  datatype EmailEntry = EmailEntry(email: string, primary: bool, verified: bool)

  predicate VerifiedPrimary(e: EmailEntry) {
    e.verified && e.primary
  }

  predicate VerifiedAddress(e: EmailEntry) {
    e.verified && e.email != ""
  }

  ghost predicate FirstVerifiedPrimary(es: seq<EmailEntry>, i: int) {
    0 <= i < |es| && VerifiedPrimary(es[i]) && forall j :: 0 <= j < i ==> !VerifiedPrimary(es[j])
  }

  ghost predicate FirstVerifiedAddress(es: seq<EmailEntry>, i: int) {
    0 <= i < |es| && VerifiedAddress(es[i]) && forall j :: 0 <= j < i ==> !VerifiedAddress(es[j])
  }

  /**
    `listed` is None when the address list could not be fetched. The first
    verified primary address wins; without one a non-blank profile address is
    used unverified, and only a blank one is replaced by the first verified address.
  */
  method SelectAddress(profileEmail: string, listed: Option<seq<EmailEntry>>) returns (email: string, verified: bool)
    ensures var es := if listed.Some? then listed.value else [];
            var profile := Text.TrimSpace(profileEmail);
            var hasPrimary := exists e <- es :: VerifiedPrimary(e);
            && (forall i :: FirstVerifiedPrimary(es, i) ==> email == es[i].email)
            && (!hasPrimary && profile != "" ==> email == profile)
            && (!hasPrimary && profile == "" ==> forall i :: FirstVerifiedAddress(es, i) ==> email == es[i].email)
            && (!hasPrimary && profile == "" && (forall e <- es :: !VerifiedAddress(e)) ==> email == "")
            && (verified <==> hasPrimary || (profile == "" && exists e <- es :: e.verified))
  {
    email := Text.TrimSpace(profileEmail);
    verified := false;
    if listed.Some? {
      var es := listed.value;
      ghost var profile := email;
      for i := 0 to |es|
        invariant forall j :: 0 <= j < i ==> !VerifiedPrimary(es[j])
        invariant profile != "" ==> email == profile && !verified
        invariant profile == "" ==> forall j :: 0 <= j < i && FirstVerifiedAddress(es, j) ==> email == es[j].email
        invariant profile == "" ==> (email == "" <==> forall j :: 0 <= j < i ==> !VerifiedAddress(es[j]))
        invariant profile == "" ==> (verified <==> exists j :: 0 <= j < i && es[j].verified)
      {
        var candidate := es[i];
        if candidate.verified && (candidate.primary || email == "") {
          email := candidate.email;
          verified := true;
          if candidate.primary {
            assert FirstVerifiedPrimary(es, i);
            return;
          }
        }
      }
    }
  }

  // Providers of an application

  /** A row of `identity_providers`; the secret is sealed. */
  datatype Provider = Provider(clientId: string, secret: Bytes, enabled: bool)

  datatype ProviderKey = ProviderKey(applicationId: nat, provider: string)

  type Providers = map<ProviderKey, Provider>

  predicate IsEnabled(table: Providers, applicationId: nat, provider: string) {
    ProviderKey(applicationId, provider) in table && table[ProviderKey(applicationId, provider)].enabled
  }
}
