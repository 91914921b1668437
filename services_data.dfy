/**
 * The service catalogue behind the service pages (src/lib/services-data.ts):
 * ten services, each with French and English content, looked up by slug.
 * Of the content only the titles are modelled; the other text fields
 * (descriptions, statistics, features, technology lists) are copy.
 */
module ServicesData {
  import opened Common
  import LeadSchema

  /** The content of a service page in one language. */
  datatype Content = Content(title: string)

  datatype ServiceDetail = ServiceDetail(slug: string, fr: Content, en: Content)

  const SERVICES: seq<ServiceDetail> := [
    ServiceDetail("rpa", Content("Automatisation Intelligente des Processus"), Content("Intelligent Process Automation")),
    ServiceDetail("agents", Content("Création d'Agents IA Personnalisés"), Content("Custom AI Agent Development")),
    ServiceDetail("saas", Content("SaaS sur Mesure"), Content("Custom SaaS Development")),
    ServiceDetail("web", Content("Développement de Sites Web Professionnels"), Content("Professional Website Development")),
    ServiceDetail("medical", Content("Solutions IA pour le Secteur Médical"), Content("AI Solutions for the Medical Sector")),
    ServiceDetail("agriculture", Content("IA & Automatisation pour l'Agriculture"), Content("AI & Automation for Agriculture")),
    ServiceDetail("education", Content("Solutions IA pour l'Éducation et la Formation"), Content("AI Solutions for Education and Training")),
    ServiceDetail("energy", Content("Optimisation Énergétique & Électricité"), Content("Energy Optimization & Electricity")),
    ServiceDetail("construction", Content("Construction et Smart Building"), Content("Construction and Smart Building")),
    ServiceDetail("consulting", Content("Conseil et Formation IA pour Entreprises"), Content("AI Consulting and Training for Businesses"))
  ]

  /** `services.map(s => s.slug)`. */
  function Slugs(services: seq<ServiceDetail>): (r: seq<string>)
    ensures |r| == |services|
    ensures forall i | 0 <= i < |services| :: r[i] == services[i].slug
  {
    seq(|services|, i requires 0 <= i < |services| => services[i].slug)
  }

  /** `SERVICE_SLUGS`, for `generateStaticParams`. */
  function ServiceSlugs(): seq<string> {
    Slugs(SERVICES)
  }

  /** `services.find(s => s.slug === slug)`: the first service with that slug. */
  function Find(services: seq<ServiceDetail>, slug: string): (r: Option<ServiceDetail>)
    ensures r.None? <==> forall s | s in services :: s.slug != slug
    ensures r.Some? ==> exists i | 0 <= i < |services| :: services[i] == r.value && r.value.slug == slug &&
                          forall j | 0 <= j < i :: services[j].slug != slug
  {
    if services == [] then None
    else if services[0].slug == slug then Some(services[0])
    else
      var r := Find(services[1..], slug);
      assert forall s | s in services :: s == services[0] || s in services[1..];
      if r.Some? then
        var k :| 0 <= k < |services| - 1 && services[1..][k] == r.value && r.value.slug == slug &&
                 forall j | 0 <= j < k :: services[1..][j].slug != slug;
        assert services[k + 1] == r.value;
        r
      else r
  }

  /** `getServiceBySlug`. */
  function GetServiceBySlug(slug: string): (r: Option<ServiceDetail>)
    ensures r.Some? <==> slug in ServiceSlugs()
    ensures r.Some? ==> r.value.slug == slug && r.value in SERVICES
  {
    if slug !in ServiceSlugs() then FindUnlisted(SERVICES, slug); Find(SERVICES, slug)
    else
      assert forall i | 0 <= i < |SERVICES| :: ServiceSlugs()[i] == SERVICES[i].slug && SERVICES[i] in SERVICES;
      Find(SERVICES, slug)
  }

  /** The slugs are exactly the lead schema's service keys, in the same order. */
  lemma SlugsAreServiceKeys()
    ensures ServiceSlugs() == LeadSchema.SERVICE_KEYS
  {
  }

  /** Ten services, no two with the same slug. */
  lemma SlugsDistinct()
    ensures |SERVICES| == 10
    ensures forall i, j | 0 <= i < j < |SERVICES| :: SERVICES[i].slug != SERVICES[j].slug
  {
    SlugsAreServiceKeys();
    LeadSchema.ServiceKeysDistinct();
  }

  /** In a catalogue with distinct slugs, each service is found by its own slug. */
  lemma FindDistinct(services: seq<ServiceDetail>, i: nat)
    requires forall a, b | 0 <= a < b < |services| :: services[a].slug != services[b].slug
    requires i < |services|
    ensures Find(services, services[i].slug) == Some(services[i])
  {
    var r := Find(services, services[i].slug);
    assert services[i] in services;
    var k :| 0 <= k < |services| && services[k] == r.value && r.value.slug == services[i].slug &&
             forall j | 0 <= j < k :: services[j].slug != services[i].slug;
    assert k == i;
  }

  /** A slug no service lists finds nothing. */
  lemma FindUnlisted(services: seq<ServiceDetail>, slug: string)
    requires slug !in Slugs(services)
    ensures Find(services, slug).None?
  {
    forall s | s in services ensures s.slug != slug {
      var i :| 0 <= i < |services| && services[i] == s;
      assert Slugs(services)[i] == s.slug;
    }
  }

  /**
   * Every listed slug leads to its own service, and any other string to
   * none: the static pages and the lookup agree.
   */
  lemma {:induction false} LookupBySlug(slug: string)
    ensures slug !in ServiceSlugs() ==> GetServiceBySlug(slug).None?
    ensures forall i | 0 <= i < |SERVICES| :: GetServiceBySlug(ServiceSlugs()[i]) == Some(SERVICES[i])
  {
    SlugsDistinct();
    forall i | 0 <= i < |SERVICES|
      ensures GetServiceBySlug(ServiceSlugs()[i]) == Some(SERVICES[i])
    {
      FindDistinct(SERVICES, i);
    }
    if slug !in ServiceSlugs() {
      FindUnlisted(SERVICES, slug);
    }
  }
}
