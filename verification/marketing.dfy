/** Marketing routes (app/routes/marketing.py): the guide slugs read for the
    sitemap, the sitemap itself, and the unsubscribe decisions. The guides
    file, the token check, the profile lookup and the preference update are
    parameters. */
module Marketing {
  import opened Common
  import Markup

  /** `_load_guide_slugs`: the truthy `slug` of each guide, in file order;
      nothing when the file is missing (`None`). A guide that is not an
      object makes `.get` raise, which nothing catches. */
  function LoadGuideSlugs(guides: Option<seq<Value>>): (r: Result<seq<Value>>)
    ensures guides.None? ==> r == Ok([])
    ensures guides.Some? ==> (r.Ok? <==> forall g <- guides.value :: g.Obj?)
    ensures r.Ok? ==> forall v <- r.value :: Truthy(v)
    ensures r.Ok? && guides.Some? ==> |r.value| <= |guides.value|
  {
    if guides.None? then Ok([]) else SlugsOf(guides.value)
  }

  /** A guide's `slug`, `None` when it has none. */
  function SlugOf(g: Value): Value {
    if g.Obj? then Get(g.fields, "slug", Null) else Null
  }

  /** The truthy slugs, in order. */
  function TruthySlugs(guides: seq<Value>): (r: seq<Value>)
    ensures forall v <- r :: Truthy(v)
    ensures |r| <= |guides|
  {
    if |guides| == 0 then []
    else (if Truthy(SlugOf(guides[0])) then [SlugOf(guides[0])] else []) + TruthySlugs(guides[1..])
  }

  /** The list comprehension: it raises on the first guide that is not an
      object, so any such guide fails the whole list. */
  function SlugsOf(guides: seq<Value>): (r: Result<seq<Value>>)
    ensures r.Ok? <==> forall g <- guides :: g.Obj?
    ensures r.Ok? ==> r.value == TruthySlugs(guides)
  {
    if forall g <- guides :: g.Obj? then Ok(TruthySlugs(guides)) else Err("AttributeError")
  }

  /** Order is kept: the slugs of two lists of guides read one after the
      other are the slugs of each, in turn. */
  lemma {:induction false} TruthySlugsAppend(a: seq<Value>, b: seq<Value>)
    ensures TruthySlugs(a + b) == TruthySlugs(a) + TruthySlugs(b)
  {
    if |a| == 0 {
      assert a + b == b;
    } else {
      assert (a + b)[0] == a[0] && (a + b)[1..] == a[1..] + b;
      TruthySlugsAppend(a[1..], b);
    }
  }

  /** One guide contributes its slug exactly when the slug is truthy. */
  lemma OneGuide(g: Value)
    ensures TruthySlugs([g]) == if Truthy(SlugOf(g)) then [SlugOf(g)] else []
  {
    assert [g][1..] == [];
  }

  // ---------------------------------------------------------------------
  // sitemap

  /** One sitemap page: path, priority and change frequency. */
  datatype Entry = Entry(loc: string, priority: string, changefreq: string)

  const StaticPages: seq<Entry> := [
    Entry("/", "1.0", "weekly"),
    Entry("/ask", "0.9", "weekly"),
    Entry("/ai-plant-doctor", "0.9", "monthly"),
    Entry("/plant-care-guides/", "0.8", "weekly"),
    Entry("/features/", "0.8", "monthly"),
    Entry("/auth/signup", "0.7", "monthly"),
    Entry("/auth/login", "0.6", "monthly"),
    Entry("/terms", "0.3", "yearly"),
    Entry("/privacy", "0.3", "yearly")
  ]

  const SeoPaths: seq<string> := [
    "/why-are-my-plant-leaves-drooping",
    "/am-i-overwatering-my-plant",
    "/how-often-should-i-water-my-plant",
    "/why-are-my-plant-leaves-turning-yellow",
    "/should-i-water-my-plant-today"
  ]

  const GuidePrefix: string := "/plant-care-guides/"

  /** All pages in sitemap order: the static pages, the landing pages, then
      one per guide slug. */
  function Pages(slugs: seq<string>): (ps: seq<Entry>)
    ensures |ps| == |StaticPages| + |SeoPaths| + |slugs|
    ensures ps[..|StaticPages|] == StaticPages
    ensures forall i :: 0 <= i < |SeoPaths| ==> ps[|StaticPages| + i] == Entry(SeoPaths[i], "0.8", "monthly")
    ensures forall i :: 0 <= i < |slugs| ==>
      ps[|StaticPages| + |SeoPaths| + i] == Entry(GuidePrefix + slugs[i], "0.7", "monthly")
  {
    StaticPages
    + seq(|SeoPaths|, i requires 0 <= i < |SeoPaths| => Entry(SeoPaths[i], "0.8", "monthly"))
    + seq(|slugs|, i requires 0 <= i < |slugs| => Entry(GuidePrefix + slugs[i], "0.7", "monthly"))
  }

  /** The escaped texts of one `<url>` element. */
  datatype UrlFields = UrlFields(loc: string, changefreq: string, priority: string)

  function Fields(base: string, e: Entry): (f: UrlFields)
    ensures '<' !in f.loc && '>' !in f.loc
    ensures '<' !in f.changefreq && '>' !in f.changefreq
    ensures '<' !in f.priority && '>' !in f.priority
  {
    UrlFields(Markup.Escape(base + e.loc, false), Markup.Escape(e.changefreq, false), Markup.Escape(e.priority, false))
  }

  /** The `<url>` element of one page. */
  function UrlXml(f: UrlFields): string {
    "  <url>\n    <loc>" + f.loc + "</loc>\n    <changefreq>" + f.changefreq
    + "</changefreq>\n    <priority>" + f.priority + "</priority>\n  </url>\n"
  }

  function Concat(parts: seq<string>): string {
    if |parts| == 0 then "" else parts[0] + Concat(parts[1..])
  }

  const Header: string := "<?xml version=\"1.0\" encoding=\"UTF-8\"?>\n<urlset xmlns=\"http://www.sitemaps.org/schemas/sitemap/0.9\">\n"
  const Footer: string := "</urlset>"

  /** The fields of every page, in order. */
  function AllFields(base: string, slugs: seq<string>): (fs: seq<UrlFields>)
    ensures |fs| == |Pages(slugs)|
    ensures forall i :: 0 <= i < |fs| ==> fs[i] == Fields(base, Pages(slugs)[i])
  {
    var ps := Pages(slugs);
    seq(|ps|, i requires 0 <= i < |ps| => Fields(base, ps[i]))
  }

  /** `sitemap`: the header, one `<url>` element per page in order, the
      footer. */
  function Sitemap(base: string, slugs: seq<string>): (xml: string)
    ensures var fs := AllFields(base, slugs);
      xml == Header + Concat(seq(|fs|, i requires 0 <= i < |fs| => UrlXml(fs[i]))) + Footer
  {
    var fs := AllFields(base, slugs);
    Header + Concat(seq(|fs|, i requires 0 <= i < |fs| => UrlXml(fs[i]))) + Footer
  }

  /** How a slug reads inside the guide path: its text, or `str()` of any
      other value (`repr`, not modelled). */
  function SlugTexts(vs: seq<Value>, repr: Value -> string): (ts: seq<string>)
    ensures |ts| == |vs|
    ensures forall i :: 0 <= i < |vs| && vs[i].Str? ==> ts[i] == vs[i].s
  {
    seq(|vs|, i requires 0 <= i < |vs| => if vs[i].Str? then vs[i].s else repr(vs[i]))
  }

  /** The sitemap route as a whole: the guide slugs read from the guides
      file (`None` when it is missing), then the document. */
  function SitemapFor(base: string, guides: Option<seq<Value>>, repr: Value -> string): (r: Result<string>)
    ensures r.Ok? <==> LoadGuideSlugs(guides).Ok?
    ensures guides.None? ==> r == Ok(Sitemap(base, []))
    ensures r.Ok? ==> r.value == Sitemap(base, SlugTexts(LoadGuideSlugs(guides).value, repr))
  {
    match LoadGuideSlugs(guides)
    case Err(e) => Err(e)
    case Ok(vs) => Ok(Sitemap(base, SlugTexts(vs, repr)))
  }

  /** Each location decodes back to the base URL followed by the page's
      path, and no escaped text can open or close a tag. */
  lemma LocationsDecode(base: string, slugs: seq<string>, i: nat)
    requires i < |Pages(slugs)|
    ensures Markup.Unescape(AllFields(base, slugs)[i].loc) == base + Pages(slugs)[i].loc
    ensures '<' !in AllFields(base, slugs)[i].loc && '>' !in AllFields(base, slugs)[i].loc
  {
    Markup.UnescapeEscape(base + Pages(slugs)[i].loc, false);
  }

  /** A guide's location is the base URL, the guides prefix and its slug. */
  lemma GuideLocation(base: string, slugs: seq<string>, i: nat)
    requires i < |slugs|
    ensures Markup.Unescape(AllFields(base, slugs)[|StaticPages| + |SeoPaths| + i].loc) == base + GuidePrefix + slugs[i]
  {
    var k := |StaticPages| + |SeoPaths| + i;
    var ps := Pages(slugs);
    assert k < |ps|;
    assert ps[k] == Entry(GuidePrefix + slugs[i], "0.7", "monthly");
    LocationsDecode(base, slugs, k);
    assert base + ps[k].loc == base + GuidePrefix + slugs[i];
  }

  // ---------------------------------------------------------------------
  // unsubscribe

  datatype Failure = InvalidLink | NoAccount | UpdateFailed

  datatype Page = Failed(why: Failure) | AlreadyUnsubscribed | Unsubscribed

  datatype Effect = SetOptOut(userId: Value) | RemoveFromAudience(email: Value)

  /** `unsubscribe`. `userId` is what the token check returned (`Null` for a
      bad token), `profile` the lookup, `updated` whether the preference
      update succeeded. */
  function Unsubscribe(userId: Value, profile: Option<map<string, Value>>, updated: bool): (r: (Page, seq<Effect>))
    ensures !Truthy(userId) ==> r == (Failed(InvalidLink), [])
    ensures Truthy(userId) && (profile.None? || profile.value == map[]) ==> r == (Failed(NoAccount), [])
    ensures r.0 == AlreadyUnsubscribed ==> r.1 == []
    ensures r.0 == AlreadyUnsubscribed <==>
      Truthy(userId) && profile.Some? && profile.value != map[]
      && !Truthy(Get(profile.value, "marketing_opt_in", Bool(false)))
    ensures r.1 != [] ==> r.1[0] == SetOptOut(userId)
    ensures forall e <- r.1 :: e.RemoveFromAudience? ==> r.0 == Unsubscribed && updated && Truthy(e.email)
    ensures r.0 == Unsubscribed ==> updated
    ensures r.0 == Failed(UpdateFailed) ==> r.1 == [SetOptOut(userId)]
    ensures Truthy(userId) && profile.Some? && Truthy(Get(profile.value, "marketing_opt_in", Bool(false))) ==>
      && |r.1| >= 1 && r.1[0] == SetOptOut(userId)
      && (r.0 == Unsubscribed <==> updated)
      && (!updated ==> r.0 == Failed(UpdateFailed))
      && (RemoveFromAudience(Get(profile.value, "email", Null)) in r.1 <==> updated && Truthy(Get(profile.value, "email", Null)))
  {
    if !Truthy(userId) then (Failed(InvalidLink), [])
    else if profile.None? || profile.value == map[] then (Failed(NoAccount), [])
    else if !Truthy(Get(profile.value, "marketing_opt_in", Bool(false))) then (AlreadyUnsubscribed, [])
    else if !updated then (Failed(UpdateFailed), [SetOptOut(userId)])
    else
      var email := Get(profile.value, "email", Null);
      (Unsubscribed, [SetOptOut(userId)] + (if Truthy(email) then [RemoveFromAudience(email)] else []))
  }

  /** Following the link again after it worked changes nothing more. */
  lemma UnsubscribeIsIdempotent(userId: Value, profile: map<string, Value>, updated: bool, again: bool)
    requires Unsubscribe(userId, Some(profile), updated).0 == Unsubscribed
    ensures Unsubscribe(userId, Some(profile["marketing_opt_in" := Bool(false)]), again) == (AlreadyUnsubscribed, [])
  {
  }
}
