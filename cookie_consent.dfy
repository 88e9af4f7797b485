/** The cookie-consent choice: unknown (`None`), accepted or declined. Only
    an acceptance is remembered in browser storage, under `cookieConsent`;
    a decline lasts for the session. */
module CookieConsent {
  import opened Outcomes

  const StoredAccept: string := "true"

  /** The choice in memory and what storage holds under the key. */
  datatype ConsentState = ConsentState(consent: Option<bool>, stored: Option<string>)

  /** The state before the load effect has run. */
  function Initial(stored: Option<string>): ConsentState {
    ConsentState(None, stored)
  }

  /** The load effect; `readable` is false when reading storage throws. */
  function Loaded(s: ConsentState, readable: bool): ConsentState {
    s.(consent := if readable && s.stored == Some(StoredAccept) then Some(true) else None)
  }

  /** `acceptCookies`; `writable` is false when writing storage throws,
      which is only logged. */
  function Accepted(s: ConsentState, writable: bool): ConsentState {
    ConsentState(Some(true), if writable then Some(StoredAccept) else s.stored)
  }

  /** `declineCookies`. */
  function Declined(s: ConsentState): ConsentState {
    s.(consent := Some(false))
  }

  /** The banner is shown while the choice is unknown. */
  predicate BannerShown(s: ConsentState) {
    s.consent.None?
  }

  /** Loading gives true only for a stored "true", and otherwise leaves the
      choice unknown, even after a decline. */
  lemma LoadedSpec(s: ConsentState, readable: bool)
    ensures Loaded(s, readable).consent != Some(false)
    ensures Loaded(s, readable).consent == Some(true) <==> readable && s.stored == Some(StoredAccept)
    ensures Loaded(s, readable).stored == s.stored
  {
  }

  /** An acceptance that reached storage survives a reload. */
  lemma AcceptRemembered(s: ConsentState)
    ensures Loaded(Accepted(s, true), true).consent == Some(true)
    ensures !BannerShown(Loaded(Accepted(s, true), true))
  {
  }

  /** Either answer hides the banner; an acceptance that failed to reach
      storage still holds in memory. */
  lemma AnswersHideBanner(s: ConsentState, writable: bool)
    ensures !BannerShown(Accepted(s, writable)) && Accepted(s, writable).consent == Some(true)
    ensures !BannerShown(Declined(s)) && Declined(s).consent == Some(false)
  {
  }

  /** A decline stores nothing, so the banner comes back on the next load
      unless an earlier acceptance was stored. */
  lemma DeclineForgotten(s: ConsentState, readable: bool)
    requires s.stored != Some(StoredAccept)
    ensures Declined(s).stored == s.stored
    ensures BannerShown(Loaded(Declined(s), readable))
  {
  }

  /** `useCookieConsent()`. */
  class Consent {
    var cookieConsent: Option<bool>
    var stored: Option<string>

    function State(): ConsentState
      reads this
    {
      ConsentState(cookieConsent, stored)
    }

    constructor (stored: Option<string>)
      ensures State() == Initial(stored)
    {
      cookieConsent := None;
      this.stored := stored;
    }

    method Load(readable: bool)
      modifies this
      ensures State() == Loaded(old(State()), readable)
    {
      if readable && stored == Some(StoredAccept) {
        cookieConsent := Some(true);
      } else {
        cookieConsent := None;
      }
    }

    method Accept(writable: bool)
      modifies this
      ensures State() == Accepted(old(State()), writable)
    {
      cookieConsent := Some(true);
      if writable {
        stored := Some(StoredAccept);
      }
    }

    method Decline()
      modifies this
      ensures State() == Declined(old(State()))
    {
      cookieConsent := Some(false);
    }
  }
}
