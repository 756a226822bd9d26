/** The recommended sitemap: a fixed, ordered page list per business type, with a
    two-page fallback for any other value. */
module Sitemap {

  import opened Tokens

  const Home := Page("home", "Home", "/", true, true, "Primary landing & conversion point")
  const Contact := Page("contact", "Contact", "/contact", false, true, "Direct communication channel")

  /** Page ids, and page slugs, are pairwise distinct. */
  predicate DistinctPages(pages: seq<Page>)
  {
    forall i, j :: 0 <= i < j < |pages| ==> pages[i].id != pages[j].id && pages[i].slug != pages[j].slug
  }

  const SaasPages := [
    Home,
    Page("features", "Features", "/features", true, true, "Explain product capabilities"),
    Page("pricing", "Pricing", "/pricing", true, true, "Primary conversion driver"),
    Page("docs", "Documentation", "/docs", false, true, "Support & Technical SEO"),
    Page("blog", "Blog", "/blog", false, false, "Content marketing & SEO"),
    Page("login", "Login", "/login", true, true, "Application entry")]

  const EcommercePages := [
    Home,
    Page("shop", "Shop All", "/shop", true, true, "Full product catalog"),
    Page("collections", "Collections", "/collections", false, true, "Curated product groupings"),
    Page("about", "Our Story", "/about", false, true, "Brand affinity & trust"),
    Page("faq", "FAQ / Shipping", "/faq", true, true, "Reduce purchase anxiety"),
    Page("cart", "Cart", "/cart", true, true, "Checkout flow")]

  const ServicePages := [
    Home,
    Page("services", "Services", "/services", true, true, "What you offer"),
    Page("about", "About Us", "/about", true, true, "Builds face-to-face trust"),
    Page("reviews", "Testimonials", "/reviews", false, true, "Social proof"),
    Page("booking", "Book Now", "/book", true, true, "Primary call-to-action"),
    Contact]

  const PortfolioPages := [
    Home,
    Page("work", "Selected Work", "/work", true, true, "The core product"),
    Page("about", "About Me", "/about", true, true, "Personality & Experience"),
    Contact]

  /** The recommended page list for a business type; total, it never fails. */
  function RecommendedSitemap(businessType: string): (pages: seq<Page>)
    ensures 2 <= |pages| <= 6 && pages[0] == Home
  {
    match businessType
    case "saas" => SaasPages
    case "ecommerce" => EcommercePages
    case "service" => ServicePages
    case "portfolio" => PortfolioPages
    case _ => [Home, Contact]
  }

  /** What every recommended list keeps to: a required page is selected, ids and slugs do
      not repeat, and Contact, where present, is the optional last page. */
  predicate WellFormedSitemap(pages: seq<Page>)
  {
    (forall i :: 0 <= i < |pages| && pages[i].required ==> pages[i].selected) &&
    DistinctPages(pages) &&
    (forall i :: 0 <= i < |pages| && pages[i].id == "contact" ==> i == |pages| - 1 && !pages[i].required)
  }

  /** Every list is well formed, and the only page that starts deselected is the SaaS blog. */
  lemma SitemapWellFormed(businessType: string)
    ensures WellFormedSitemap(RecommendedSitemap(businessType))
    ensures var pages := RecommendedSitemap(businessType);
      forall i :: 0 <= i < |pages| && !pages[i].selected ==> businessType == "saas" && pages[i].id == "blog"
  {
    match businessType
    case "saas" => SaasWellFormed();
    case "ecommerce" => EcommerceWellFormed();
    case "service" => ServiceWellFormed();
    case "portfolio" => PortfolioWellFormed();
    case _ =>
  }

  lemma SaasWellFormed()
    ensures WellFormedSitemap(SaasPages)
    ensures forall i :: 0 <= i < |SaasPages| && !SaasPages[i].selected ==> SaasPages[i].id == "blog"
  {
  }

  lemma EcommerceWellFormed()
    ensures WellFormedSitemap(EcommercePages)
    ensures forall i :: 0 <= i < |EcommercePages| ==> EcommercePages[i].selected
  {
  }

  lemma ServiceWellFormed()
    ensures WellFormedSitemap(ServicePages)
    ensures forall i :: 0 <= i < |ServicePages| ==> ServicePages[i].selected
  {
  }

  lemma PortfolioWellFormed()
    ensures WellFormedSitemap(PortfolioPages)
    ensures forall i :: 0 <= i < |PortfolioPages| ==> PortfolioPages[i].selected
  {
  }

  predicate KnownBusinessType(businessType: string)
  {
    businessType in {"saas", "ecommerce", "service", "portfolio"}
  }

  /** Any value outside the four known business types gets exactly Home and Contact. */
  lemma FallbackSitemap(businessType: string)
    requires !KnownBusinessType(businessType)
    ensures RecommendedSitemap(businessType) == [Home, Contact]
  {
  }

  /** The list lengths per business type. */
  lemma SitemapLengths(businessType: string)
    ensures |RecommendedSitemap(businessType)| ==
      if businessType in {"saas", "ecommerce", "service"} then 6
      else if businessType == "portfolio" then 4
      else 2
  {
  }

  /** The SaaS blog is recommended but starts deselected. */
  lemma SaasBlogUnselected()
    ensures var pages := RecommendedSitemap("saas");
      pages[4].id == "blog" && !pages[4].required && !pages[4].selected
  {
  }

  /** Contact closes every list it appears in: service, portfolio and the fallback. */
  lemma ContactCloses(businessType: string)
    requires businessType !in {"saas", "ecommerce"}
    ensures var pages := RecommendedSitemap(businessType); pages[|pages| - 1] == Contact
  {
  }
}
