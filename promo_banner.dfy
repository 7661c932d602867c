/** The promotional banner (apps/web/src/components/PromoBanner.tsx): a
    container that always reserves its height, and an offer shown only to a
    visitor known to be signed out. */
module PromoBanner {
  import AuthContext

  /** The container's minimum height and whether the offer is inside it. */
  datatype Banner = Banner(minHeight: string, showsOffer: bool)

  function Render(isAuthenticated: bool, isLoading: bool): (b: Banner)
    ensures b.showsOffer <==> !isLoading && !isAuthenticated
    ensures b.minHeight == (if isAuthenticated then "0px" else "48px")
  {
    Banner(if isAuthenticated then "0px" else "48px", !isLoading && !isAuthenticated)
  }

  /** While authentication is loading, the offer is never shown. */
  lemma OfferHiddenWhileLoading(isAuthenticated: bool)
    ensures !Render(isAuthenticated, true).showsOffer
  {
  }

  /** The reserved height does not depend on loading, so the offer appearing
      when loading ends does not move the page. */
  lemma HeightIgnoresLoading(isAuthenticated: bool)
    ensures Render(isAuthenticated, true).minHeight == Render(isAuthenticated, false).minHeight
  {
  }

  /** The offer only ever appears inside the 48px it has reserved. */
  lemma OfferHasReservedSpace(isAuthenticated: bool, isLoading: bool)
    ensures Render(isAuthenticated, isLoading).showsOffer ==> Render(isAuthenticated, isLoading).minHeight == "48px"
  {
  }

  /** On first render, under a freshly mounted auth provider, the offer is hidden. */
  method BannerAtMount(storage: map<string, string>) returns (b: Banner)
    ensures !b.showsOffer
    ensures b.minHeight == (if AuthContext.Truthy(AuthContext.Get(storage, AuthContext.TokenKey)) then "0px" else "48px")
  {
    var auth := new AuthContext.AuthProvider(storage);
    b := Render(auth.isAuthenticated, auth.isLoading);
  }
}
