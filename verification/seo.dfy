/** The problem-first landing pages (app/routes/seo.py): the page table keyed
    by slug, the slug-to-route table, and the related-page links. The page
    records come from a data file that is a parameter here. */
module Seo {
  import opened Common

  /** One landing-page record of the data file (only the fields the routes
      read). */
  datatype Page = Page(slug: string, title: string, routeName: string, relatedPages: seq<string>)

  /** `LANDING_PAGES`: keyed by slug; a later record with the same slug
      replaces an earlier one. */
  function LandingPages(pages: seq<Page>): (lp: map<string, Page>)
    ensures lp.Keys == set p <- pages :: p.slug
    ensures forall s <- lp :: lp[s].slug == s && lp[s] in pages
  {
    if |pages| == 0 then map[]
    else
      var last := pages[|pages| - 1];
      var before := LandingPages(pages[..|pages| - 1]);
      assert pages == pages[..|pages| - 1] + [last];
      before[last.slug := last]
  }

  /** The last record carrying a slug is the one kept. */
  lemma {:induction false} LastRecordWins(pages: seq<Page>, i: nat)
    requires i < |pages|
    requires forall j :: i < j < |pages| ==> pages[j].slug != pages[i].slug
    ensures LandingPages(pages)[pages[i].slug] == pages[i]
  {
    if i < |pages| - 1 {
      LastRecordWins(pages[..|pages| - 1], i);
    }
  }

  /** `SLUG_TO_ROUTE`. */
  function SlugToRoute(lp: map<string, Page>): (routes: map<string, string>)
    ensures routes.Keys == lp.Keys
    ensures forall s <- routes :: routes[s] == lp[s].routeName
  {
    map s | s in lp :: lp[s].routeName
  }

  /** `_get_page`: `None` for an unknown slug. */
  function GetPage(lp: map<string, Page>, slug: string): (p: Option<Page>)
    ensures p.None? <==> slug !in lp
    ensures p.Some? ==> p.value == lp[slug]
  {
    if slug in lp then Some(lp[slug]) else None
  }

  /** Looking a slug up in the page table finds a record with that slug
      exactly when the data file has one. */
  lemma GetPageFindsRecord(pages: seq<Page>, slug: string)
    ensures GetPage(LandingPages(pages), slug).Some? <==> exists p <- pages :: p.slug == slug
    ensures GetPage(LandingPages(pages), slug).Some? ==>
      GetPage(LandingPages(pages), slug).value.slug == slug && GetPage(LandingPages(pages), slug).value in pages
  {
  }

  /** Every page in the table has a route, and only those. */
  lemma EveryPageHasRoute(pages: seq<Page>, slug: string)
    ensures slug in SlugToRoute(LandingPages(pages)) <==> GetPage(LandingPages(pages), slug).Some?
  {
  }

  /** A link to a related page. */
  datatype Link = Link(slug: string, title: string, routeName: string)

  /** `_get_related_pages`: a link for each known slug, in the given order,
      duplicates included; unknown slugs are dropped. */
  function RelatedPages(lp: map<string, Page>, slugs: seq<string>): (r: seq<Link>)
    ensures |r| <= |slugs|
    ensures forall l <- r :: l.slug in lp && l == Link(l.slug, lp[l.slug].title, lp[l.slug].routeName)
    ensures forall l <- r :: l.slug in slugs
  {
    if |slugs| == 0 then []
    else
      var s := slugs[0];
      (if s in lp then [Link(s, lp[s].title, lp[s].routeName)] else []) + RelatedPages(lp, slugs[1..])
  }

  /** Order is kept: the links of a concatenation are the concatenation of
      the links. */
  lemma {:induction false} RelatedPagesAppend(lp: map<string, Page>, a: seq<string>, b: seq<string>)
    ensures RelatedPages(lp, a + b) == RelatedPages(lp, a) + RelatedPages(lp, b)
  {
    if |a| > 0 {
      assert (a + b)[0] == a[0] && (a + b)[1..] == a[1..] + b;
      RelatedPagesAppend(lp, a[1..], b);
    } else {
      assert a + b == b;
    }
  }

  /** When every slug is known, nothing is dropped: one link per slug, in
      order, repeats kept. */
  lemma {:induction false} KnownSlugsAllLinked(lp: map<string, Page>, slugs: seq<string>)
    requires forall s <- slugs :: s in lp
    ensures |RelatedPages(lp, slugs)| == |slugs|
    ensures forall i :: 0 <= i < |slugs| ==> RelatedPages(lp, slugs)[i].slug == slugs[i]
  {
    if |slugs| > 0 {
      KnownSlugsAllLinked(lp, slugs[1..]);
    }
  }

  /** Unknown slugs contribute nothing. */
  lemma UnknownSlugsDropped(lp: map<string, Page>, slugs: seq<string>)
    requires forall s <- slugs :: s !in lp
    ensures RelatedPages(lp, slugs) == []
  {
  }

  /** A landing route: the page and its related links; an unknown slug makes
      the handler index `None`, which fails the request. */
  function LandingRoute(pages: seq<Page>, slug: string): (r: Result<(Page, seq<Link>)>)
    ensures r.Err? <==> forall p <- pages :: p.slug != slug
    ensures r.Ok? ==> r.value.0.slug == slug && r.value.0 in pages
    ensures r.Ok? ==> r.value.1 == RelatedPages(LandingPages(pages), r.value.0.relatedPages)
  {
    var lp := LandingPages(pages);
    match GetPage(lp, slug)
    case None => Err("TypeError")
    case Some(page) => Ok((page, RelatedPages(lp, page.relatedPages)))
  }
}
