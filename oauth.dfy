/** Google sign-in (src/routes/oauth.js): the callback's checks, the customer it
    creates on a first sign-in, and the field-by-field merge that links Google to
    an existing account. The token exchange, the profile request and the point of
    sale's customer lookup are inputs. */
module OAuth {
  import opened Common
  import opened Models

  /** The profile fields the callback reads. */
  datatype Profile = Profile(googleId: Option<string>, email: Option<string>, firstName: Option<string>,
                             lastName: Option<string>)

  /** `if (!x && y) x = y`: fill an empty field from a given value. */
  function Fill(current: Option<string>, incoming: Option<string>): (r: Option<string>)
    ensures Given(current) ==> r == current
    ensures !Given(current) && Given(incoming) ==> r == incoming
    ensures !Given(current) && !Given(incoming) ==> r == current
  {
    if !Given(current) && Given(incoming) then incoming else current
  }

  /** The provider after linking: an absent, empty or "local" provider becomes
      "local+google"; any other value stays. */
  function LinkedProvider(p: Option<string>): (r: Option<string>)
    ensures !Given(p) || p == Some("local") ==> r == Some("local+google")
    ensures Given(p) && p != Some("local") ==> r == p
  {
    if !Given(p) || p == Some("local") then Some("local+google") else p
  }

  /** The stored fields of an existing customer after the merge. */
  function Linked(c: CustomerRecord, profile: Profile, squareCustomerId: Option<string>): CustomerRecord {
    c.(googleId := if !Given(c.googleId) then profile.googleId else c.googleId,
       authProvider := LinkedProvider(c.authProvider),
       firstName := Fill(c.firstName, profile.firstName),
       lastName := Fill(c.lastName, profile.lastName),
       squareCustomerId := Fill(c.squareCustomerId, squareCustomerId))
  }

  /** A linked Google id is never overwritten, a provider other than "local" is
      kept, and nothing the merge does not name changes. */
  lemma LinkedKeeps(c: CustomerRecord, profile: Profile, squareCustomerId: Option<string>)
    ensures var r := Linked(c, profile, squareCustomerId);
      (Given(c.googleId) ==> r.googleId == c.googleId) &&
      (Given(c.authProvider) && c.authProvider != Some("local") ==> r.authProvider == c.authProvider) &&
      (Given(c.firstName) ==> r.firstName == c.firstName) &&
      (Given(c.lastName) ==> r.lastName == c.lastName) &&
      (Given(c.squareCustomerId) ==> r.squareCustomerId == c.squareCustomerId) &&
      r.email == c.email && r.passwordHash == c.passwordHash && r.role == c.role &&
      r.giftCardBalance == c.giftCardBalance && r.orders == c.orders
  {
  }

  /** After a merge with a checked profile the account carries a Google id and a
      provider, and merging the same profile again changes nothing. */
  lemma LinkedIdempotent(c: CustomerRecord, profile: Profile, squareCustomerId: Option<string>)
    requires Given(profile.googleId)
    ensures Given(Linked(c, profile, squareCustomerId).googleId)
    ensures Given(Linked(c, profile, squareCustomerId).authProvider)
    ensures Linked(Linked(c, profile, squareCustomerId), profile, squareCustomerId) == Linked(c, profile, squareCustomerId)
  {
  }

  /** Linking the Google identity: the id only when none is stored, and the provider
      unless it is something other than "local". */
  method LinkIdentity(customer: Customer, googleId: Option<string>)
    modifies customer
    ensures customer.Snapshot() == old(customer.Snapshot()).(
              googleId := if !Given(old(customer.googleId)) then googleId else old(customer.googleId),
              authProvider := LinkedProvider(old(customer.authProvider)))
  {
    if !Given(customer.googleId) {
      customer.googleId := googleId;
    }
    if !Given(customer.authProvider) || customer.authProvider == Some("local") {
      customer.authProvider := Some("local+google");
    }
  }

  /** Filling the missing profile fields, each by the `Fill` rule. */
  method FillProfile(customer: Customer, firstName: Option<string>, lastName: Option<string>,
                     squareCustomerId: Option<string>)
    modifies customer
    ensures customer.Snapshot() == old(customer.Snapshot()).(
              firstName := Fill(old(customer.firstName), firstName),
              lastName := Fill(old(customer.lastName), lastName),
              squareCustomerId := Fill(old(customer.squareCustomerId), squareCustomerId))
  {
    customer.firstName := Fill(customer.firstName, firstName);
    customer.lastName := Fill(customer.lastName, lastName);
    customer.squareCustomerId := Fill(customer.squareCustomerId, squareCustomerId);
  }

  /** The existing-customer branch: link the identity, then fill the profile. */
  method LinkGoogle(customer: Customer, profile: Profile, squareCustomerId: Option<string>)
    modifies customer
    ensures customer.Snapshot() == Linked(old(customer.Snapshot()), profile, squareCustomerId)
  {
    LinkIdentity(customer, profile.googleId);
    FillProfile(customer, profile.firstName, profile.lastName, squareCustomerId);
  }

  /** The customer document built on a first Google sign-in, before it is saved;
      the schema lower-cases its email. */
  method NewGoogleCustomer(profile: Profile, squareCustomerId: Option<string>) returns (c: Customer)
    requires profile.email.Some?
    ensures fresh(c)
    ensures c.Snapshot() == CustomerRecord(Lower(profile.email.value), profile.googleId, Some("google"), None,
                                           profile.firstName, profile.lastName, None, squareCustomerId,
                                           "customer", false, false, 0.0, [])
  {
    c := new Customer(profile.email.value, None);
    c.googleId, c.authProvider := profile.googleId, Some("google");
    c.firstName, c.lastName := profile.firstName, profile.lastName;
    c.squareCustomerId := squareCustomerId;
  }

  /** `ServerError` is the 500 answer when `save()` throws: the schema requires a
      `squareCustomerId`, which the point of sale's lookup can leave null. */
  datatype Outcome = MissingCode | RedirectToLogin | Created(customer: Customer) | SignedIn | ServerError

  /** GET /google/callback. A missing code is refused; a profile without an email
      or a Google id goes back to the login page with nothing written; otherwise the
      customer with that email (`existing`, null when there is none) is linked, or a
      new one is created. Either save fails, with nothing written, when the saved
      document would have no point-of-sale id. */
  method Callback(code: Option<string>, profile: Profile, existing: Customer?, squareCustomerId: Option<string>)
    returns (o: Outcome)
    modifies existing
    ensures !Given(code) ==> o == MissingCode
    ensures Given(code) && (!Given(profile.email) || !Given(profile.googleId)) ==> o == RedirectToLogin
    ensures !o.SignedIn? ==> existing == null || unchanged(existing)
    ensures Given(code) && Given(profile.email) && Given(profile.googleId) && existing == null ==>
      (Given(squareCustomerId) ==>
         o.Created? && fresh(o.customer) &&
         o.customer.Snapshot() == CustomerRecord(Lower(profile.email.value), profile.googleId, Some("google"),
                                                 None, profile.firstName, profile.lastName, None,
                                                 squareCustomerId, "customer", false, false, 0.0, [])) &&
      (!Given(squareCustomerId) ==> o == ServerError)
    ensures Given(code) && Given(profile.email) && Given(profile.googleId) && existing != null ==>
      (Given(old(existing.squareCustomerId)) || Given(squareCustomerId) ==>
         o == SignedIn && existing.Snapshot() == Linked(old(existing.Snapshot()), profile, squareCustomerId)) &&
      (!Given(old(existing.squareCustomerId)) && !Given(squareCustomerId) ==> o == ServerError)
  {
    if !Given(code) {
      return MissingCode;
    }
    if !Given(profile.email) || !Given(profile.googleId) {
      return RedirectToLogin;
    }
    if existing == null {
      if !Given(squareCustomerId) {
        return ServerError;
      }
      var c := NewGoogleCustomer(profile, squareCustomerId);
      return Created(c);
    }
    if !Given(existing.squareCustomerId) && !Given(squareCustomerId) {
      return ServerError;
    }
    LinkGoogle(existing, profile, squareCustomerId);
    o := SignedIn;
  }
}
