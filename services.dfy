/** The service catalogue behind the `/services/[slug]` pages and its two lookups. */
module Services {
  import opened Options
  import opened Seqs

  datatype Category = Residential | Commercial | Decorative | Structural

  /** The fields of a service the lookups and page titles use. */
  datatype Service = Service(slug: string, title: string, category: Category)

  /** `services`, in order. */
  const Catalogue: seq<Service> := [
    Service("driveways-walkways", "Driveways & Walkways", Residential),
    Service("stamped-concrete", "Stamped Decorative Concrete", Decorative)]

  /** `getServiceBySlug`: a service with the queried slug, or nothing when no
      service has it. */
  function GetServiceBySlug(slug: string): (r: Option<Service>)
    ensures r.Some? ==> r.value in Catalogue && r.value.slug == slug
    ensures r.None? <==> forall s :: s in Catalogue ==> s.slug != slug
  {
    Find((s: Service) => s.slug == slug, Catalogue)
  }

  /** The lookup returns the first service carrying the slug. */
  lemma GetServiceBySlugIsFirst(slug: string, i: nat)
    requires i < |Catalogue| && Catalogue[i].slug == slug
    requires forall j :: 0 <= j < i ==> Catalogue[j].slug != slug
    ensures GetServiceBySlug(slug) == Some(Catalogue[i])
  {
    FindIsFirst((s: Service) => s.slug == slug, Catalogue, i);
  }

  /** `getAllServiceSlugs`: the slugs in catalogue order, one per service. */
  function GetAllServiceSlugs(): (slugs: seq<string>)
    ensures |slugs| == |Catalogue|
    ensures forall i :: 0 <= i < |Catalogue| ==> slugs[i] == Catalogue[i].slug
  {
    seq(|Catalogue|, i requires 0 <= i < |Catalogue| => Catalogue[i].slug)
  }

  /** A slug is listed exactly when a page can be found for it. */
  lemma ListedIffFound(slug: string)
    ensures slug in GetAllServiceSlugs() <==> GetServiceBySlug(slug).Some?
  {
    var slugs := GetAllServiceSlugs();
    if slug in slugs {
      var i :| 0 <= i < |slugs| && slugs[i] == slug;
      assert Catalogue[i] in Catalogue;
    }
    if GetServiceBySlug(slug).Some? {
      var s := GetServiceBySlug(slug).value;
      var i :| 0 <= i < |Catalogue| && Catalogue[i] == s;
      assert slugs[i] == slug;
    }
  }

  /** No two services share a slug, so each slug names one page. */
  lemma SlugsAreDistinct()
    ensures forall i, j :: 0 <= i < j < |GetAllServiceSlugs()| ==> GetAllServiceSlugs()[i] != GetAllServiceSlugs()[j]
  {
    assert Catalogue[0].slug[0] != Catalogue[1].slug[0];
  }

  /** Both published slugs resolve, each to its own entry. */
  lemma PublishedSlugsResolve()
    ensures GetServiceBySlug("driveways-walkways") == Some(Catalogue[0])
    ensures GetServiceBySlug("stamped-concrete") == Some(Catalogue[1])
  {
    GetServiceBySlugIsFirst("driveways-walkways", 0);
    assert Catalogue[0].slug[0] != "stamped-concrete"[0];
    GetServiceBySlugIsFirst("stamped-concrete", 1);
  }
}
