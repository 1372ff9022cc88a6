/** The SEO helpers: canonical URLs and the schema.org JSON-LD documents the
    pages embed, built as JSON trees. */
module Seo {
  import opened Wrappers
  import opened Json

  const Domain: string := "https://propertymanagementgibraltar.com"
  const SchemaOrg: string := "https://schema.org"
  const BusinessName: string := "Property Management Gibraltar"

  // Canonical URLs

  /** The canonical URL of a page path: the root path maps to the bare
      domain, every other path is appended to it verbatim. */
  function Canonical(path: string): (url: string)
    ensures |Domain| <= |url| && url[..|Domain|] == Domain
    ensures path == "/" ==> url == Domain
    ensures path != "/" ==> url[|Domain|..] == path
  {
    Domain + (if path == "/" then "" else path)
  }

  /** Two paths share a canonical URL exactly when they are equal or both
      denote the root ("/" and the empty path). */
  lemma CanonicalCollision(p: string, q: string)
    ensures Canonical(p) == Canonical(q) <==> p == q || (p in {"", "/"} && q in {"", "/"})
  {
  }

  // Shared nodes

  /** `{"@type": "Place", "name": "Gibraltar"}` */
  const Gibraltar: Json :=
    JObj(["@type", "name"], map["@type" := JStr("Place"), "name" := JStr("Gibraltar")])

  /** A `{"@type": t, "name": BusinessName, "url": Domain}` node. */
  function Business(t: string): (r: Json)
    ensures GetStr(r, "@type") == Some(t)
    ensures GetStr(r, "name") == Some(BusinessName)
    ensures GetStr(r, "url") == Some(Domain)
  {
    JObj(["@type", "name", "url"],
      map["@type" := JStr(t), "name" := JStr(BusinessName), "url" := JStr(Domain)])
  }

  // Service

  datatype ServiceInfo = ServiceInfo(name: string, description: string, url: string)

  const ServiceKeys: seq<string> :=
    ["@context", "@type", "name", "description", "url", "provider", "areaServed"]

  /** A Service document: the service's own fields, provided by the business
      at `Domain`, serving Gibraltar. */
  function ServiceLD(s: ServiceInfo): (r: Json)
    ensures r.JObj? && r.keys == ServiceKeys
    ensures GetStr(r, "@context") == Some(SchemaOrg)
    ensures GetStr(r, "@type") == Some("Service")
    ensures GetStr(r, "name") == Some(s.name)
    ensures GetStr(r, "description") == Some(s.description)
    ensures GetStr(r, "url") == Some(s.url)
    ensures Get(r, "provider").Some?
    ensures GetStr(Get(r, "provider").value, "url") == Some(Domain)
    ensures GetStr(Get(r, "provider").value, "@type") == Some("LocalBusiness")
  {
    JObj(ServiceKeys,
      map[
        "@context" := JStr(SchemaOrg),
        "@type" := JStr("Service"),
        "name" := JStr(s.name),
        "description" := JStr(s.description),
        "url" := JStr(s.url),
        "provider" := Business("LocalBusiness"),
        "areaServed" := Gibraltar])
  }

  lemma ServiceWellFormed(s: ServiceInfo)
    ensures WellFormedObject(ServiceLD(s))
  {
  }

  /** Reads the service's own fields back out of a Service document. */
  function ReadService(j: Json): Option<ServiceInfo> {
    match (GetStr(j, "name"), GetStr(j, "description"), GetStr(j, "url"))
    case (Some(n), Some(d), Some(u)) => Some(ServiceInfo(n, d, u))
    case _ => None
  }

  /** The Service document copies name, description and url unchanged. */
  lemma ServiceRoundTrip(s: ServiceInfo)
    ensures ReadService(ServiceLD(s)) == Some(s)
  {
  }

  // Breadcrumbs

  datatype Crumb = Crumb(name: string, url: string)

  /** One `ListItem` at the given position. */
  function ListItem(position: int, c: Crumb): (r: Json)
    ensures WellFormedObject(r)
    ensures GetStr(r, "@type") == Some("ListItem")
    ensures GetNum(r, "position") == Some(position)
    ensures GetStr(r, "name") == Some(c.name)
    ensures GetStr(r, "item") == Some(c.url)
  {
    JObj(["@type", "position", "name", "item"],
      map["@type" := JStr("ListItem"), "position" := JNum(position),
          "name" := JStr(c.name), "item" := JStr(c.url)])
  }

  /** `items.map((item, i) => ListItem(first + i, item))`. */
  function ListItems(items: seq<Crumb>, first: int): (r: seq<Json>)
    ensures |r| == |items|
    ensures forall i :: 0 <= i < |items| ==> r[i] == ListItem(first + i, items[i])
    decreases |items|
  {
    if |items| == 0 then []
    else [ListItem(first, items[0])] + ListItems(items[1..], first + 1)
  }

  /** A BreadcrumbList document: one list item per crumb, in order, at
      positions 1, 2, ..., n. */
  function BreadcrumbLD(items: seq<Crumb>): (r: Json)
    ensures WellFormedObject(r)
    ensures GetStr(r, "@type") == Some("BreadcrumbList")
    ensures GetArr(r, "itemListElement").Some?
    ensures var els := GetArr(r, "itemListElement").value;
      && |els| == |items|
      && forall i :: 0 <= i < |items| ==>
        && GetNum(els[i], "position") == Some(i + 1)
        && GetStr(els[i], "name") == Some(items[i].name)
        && GetStr(els[i], "item") == Some(items[i].url)
  {
    JObj(["@context", "@type", "itemListElement"],
      map["@context" := JStr(SchemaOrg), "@type" := JStr("BreadcrumbList"),
          "itemListElement" := JArr(ListItems(items, 1))])
  }

  /** Reads crumbs back out of list items, insisting that the positions run
      `first`, `first + 1`, ... without a gap. */
  function ReadCrumbs(els: seq<Json>, first: int): Option<seq<Crumb>>
    decreases |els|
  {
    if |els| == 0 then Some([])
    else
      match (GetNum(els[0], "position"), GetStr(els[0], "name"), GetStr(els[0], "item"))
      case (Some(p), Some(n), Some(u)) =>
        if p != first then None
        else
          (match ReadCrumbs(els[1..], first + 1)
           case Some(rest) => Some([Crumb(n, u)] + rest)
           case None => None)
      case _ => None
  }

  function ReadBreadcrumb(j: Json): Option<seq<Crumb>> {
    match GetArr(j, "itemListElement")
    case Some(els) => ReadCrumbs(els, 1)
    case None => None
  }

  lemma ReadCrumbsStep(els: seq<Json>, first: int, c: Crumb, rest: seq<Crumb>)
    requires |els| > 0
    requires GetNum(els[0], "position") == Some(first)
    requires GetStr(els[0], "name") == Some(c.name) && GetStr(els[0], "item") == Some(c.url)
    requires ReadCrumbs(els[1..], first + 1) == Some(rest)
    ensures ReadCrumbs(els, first) == Some([c] + rest)
  {
  }

  lemma {:induction false} ReadListItems(items: seq<Crumb>, first: int)
    ensures ReadCrumbs(ListItems(items, first), first) == Some(items)
    decreases |items|
  {
    if |items| > 0 {
      var head, tail := ListItem(first, items[0]), ListItems(items[1..], first + 1);
      var els := ListItems(items, first);
      assert els == [head] + tail;
      assert els[0] == head && els[1..] == tail;
      ReadListItems(items[1..], first + 1);
      ReadCrumbsStep(els, first, items[0], items[1..]);
      assert items == [items[0]] + items[1..];
    }
  }

  /** The breadcrumb list reads back as the crumbs it was built from, with
      consecutive positions starting at 1. */
  lemma BreadcrumbRoundTrip(items: seq<Crumb>)
    ensures ReadBreadcrumb(BreadcrumbLD(items)) == Some(items)
  {
    ReadListItems(items, 1);
  }

  // FAQ

  datatype Faq = Faq(q: string, a: string)

  /** One `Question` with its accepted `Answer`. */
  function Question(f: Faq): (r: Json)
    ensures WellFormedObject(r)
    ensures GetStr(r, "@type") == Some("Question")
    ensures GetStr(r, "name") == Some(f.q)
    ensures Get(r, "acceptedAnswer").Some?
    ensures GetStr(Get(r, "acceptedAnswer").value, "@type") == Some("Answer")
    ensures GetStr(Get(r, "acceptedAnswer").value, "text") == Some(f.a)
  {
    JObj(["@type", "name", "acceptedAnswer"],
      map["@type" := JStr("Question"), "name" := JStr(f.q),
          "acceptedAnswer" := JObj(["@type", "text"], map["@type" := JStr("Answer"), "text" := JStr(f.a)])])
  }

  /** `faqs.map(Question)`. */
  function Questions(faqs: seq<Faq>): (r: seq<Json>)
    ensures |r| == |faqs|
    ensures forall i :: 0 <= i < |faqs| ==> r[i] == Question(faqs[i])
    decreases |faqs|
  {
    if |faqs| == 0 then [] else [Question(faqs[0])] + Questions(faqs[1..])
  }

  /** An FAQPage document: one question per entry, in order. */
  function FaqLD(faqs: seq<Faq>): (r: Json)
    ensures WellFormedObject(r)
    ensures GetStr(r, "@type") == Some("FAQPage")
    ensures GetArr(r, "mainEntity").Some?
    ensures var qs := GetArr(r, "mainEntity").value;
      && |qs| == |faqs|
      && forall i :: 0 <= i < |faqs| ==>
        && GetStr(qs[i], "name") == Some(faqs[i].q)
        && Get(qs[i], "acceptedAnswer").Some?
        && GetStr(Get(qs[i], "acceptedAnswer").value, "text") == Some(faqs[i].a)
  {
    JObj(["@context", "@type", "mainEntity"],
      map["@context" := JStr(SchemaOrg), "@type" := JStr("FAQPage"),
          "mainEntity" := JArr(Questions(faqs))])
  }

  /** Reads one question and its answer text. */
  function ReadQuestion(j: Json): Option<Faq> {
    match (GetStr(j, "name"), Get(j, "acceptedAnswer"))
    case (Some(q), Some(ans)) =>
      (match GetStr(ans, "text")
       case Some(a) => Some(Faq(q, a))
       case None => None)
    case _ => None
  }

  function ReadQuestions(qs: seq<Json>): Option<seq<Faq>>
    decreases |qs|
  {
    if |qs| == 0 then Some([])
    else
      match (ReadQuestion(qs[0]), ReadQuestions(qs[1..]))
      case (Some(f), Some(rest)) => Some([f] + rest)
      case _ => None
  }

  function ReadFaq(j: Json): Option<seq<Faq>> {
    match GetArr(j, "mainEntity")
    case Some(qs) => ReadQuestions(qs)
    case None => None
  }

  lemma ReadQuestionOf(f: Faq)
    ensures ReadQuestion(Question(f)) == Some(f)
  {
  }

  lemma ReadQuestionsStep(qs: seq<Json>, f: Faq, rest: seq<Faq>)
    requires |qs| > 0 && ReadQuestion(qs[0]) == Some(f) && ReadQuestions(qs[1..]) == Some(rest)
    ensures ReadQuestions(qs) == Some([f] + rest)
  {
  }

  lemma {:induction false} ReadQuestionsOf(faqs: seq<Faq>)
    ensures ReadQuestions(Questions(faqs)) == Some(faqs)
    decreases |faqs|
  {
    if |faqs| > 0 {
      var head, tail := Question(faqs[0]), Questions(faqs[1..]);
      var qs := Questions(faqs);
      assert qs == [head] + tail;
      assert qs[0] == head && qs[1..] == tail;
      ReadQuestionsOf(faqs[1..]);
      ReadQuestionOf(faqs[0]);
      ReadQuestionsStep(qs, faqs[0], faqs[1..]);
      assert faqs == [faqs[0]] + faqs[1..];
    }
  }

  /** The FAQ page reads back as the question/answer pairs it was built from. */
  lemma FaqRoundTrip(faqs: seq<Faq>)
    ensures ReadFaq(FaqLD(faqs)) == Some(faqs)
  {
    ReadQuestionsOf(faqs);
  }

  // Article

  /** An article's metadata; `image` and `author` are optional fields. */
  datatype Article = Article(
    title: string,
    description: string,
    url: string,
    image: Option<string>,
    datePublished: string,
    author: Option<string>)

  /** `author || BusinessName`: an absent or empty author falls back to the
      business. */
  function AuthorName(author: Option<string>): (n: string)
    ensures n != ""
    ensures author.Some? && author.value != "" ==> n == author.value
    ensures author.None? || author.value == "" ==> n == BusinessName
  {
    if author.Some? && author.value != "" then author.value else BusinessName
  }

  /** `...(image && { image })` spreads a key only for a non-empty image. */
  predicate HasImage(a: Article) {
    a.image.Some? && a.image.value != ""
  }

  function ArticleKeys(withImage: bool): seq<string> {
    ["@context", "@type", "headline", "description", "url"]
      + (if withImage then ["image"] else [])
      + ["datePublished", "author", "publisher"]
  }

  function ArticleFields(a: Article): map<string, Json> {
    var base := map[
      "@context" := JStr(SchemaOrg),
      "@type" := JStr("Article"),
      "headline" := JStr(a.title),
      "description" := JStr(a.description),
      "url" := JStr(a.url),
      "datePublished" := JStr(a.datePublished),
      "author" := JObj(["@type", "name"], map["@type" := JStr("Person"), "name" := JStr(AuthorName(a.author))]),
      "publisher" := Business("Organization")];
    if HasImage(a) then base["image" := JStr(a.image.value)] else base
  }

  /** An Article document: the image key appears only for a non-empty image,
      and the author is named even when none is given. */
  function ArticleLD(a: Article): (r: Json)
    ensures r.JObj? && r.keys == ArticleKeys(HasImage(a))
    ensures Get(r, "image").Some? <==> HasImage(a)
    ensures HasImage(a) ==> GetStr(r, "image") == a.image
    ensures Get(r, "author").Some?
    ensures GetStr(Get(r, "author").value, "@type") == Some("Person")
    ensures GetStr(Get(r, "author").value, "name") ==
      Some(if a.author.Some? && a.author.value != "" then a.author.value else BusinessName)
    ensures Get(r, "publisher").Some?
    ensures GetStr(Get(r, "publisher").value, "url") == Some(Domain)
  {
    JObj(ArticleKeys(HasImage(a)), ArticleFields(a))
  }

  /** The Article document copies the article's own fields unchanged. */
  lemma ArticleCopiesFields(a: Article)
    ensures var r := ArticleLD(a);
      && GetStr(r, "@type") == Some("Article")
      && GetStr(r, "headline") == Some(a.title)
      && GetStr(r, "description") == Some(a.description)
      && GetStr(r, "url") == Some(a.url)
      && GetStr(r, "datePublished") == Some(a.datePublished)
  {
  }

  lemma ArticleWellFormed(a: Article)
    ensures WellFormedObject(ArticleLD(a))
  {
  }

  /** Falsy optional fields are indistinguishable from absent ones: an empty
      image or author yields the same document as none at all. */
  lemma ArticleEmptyIsAbsent(a: Article)
    ensures ArticleLD(a.(image := Some(""))) == ArticleLD(a.(image := None))
    ensures ArticleLD(a.(author := Some(""))) == ArticleLD(a.(author := None))
  {
  }

  /** What an Article document determines of its input: empty optional
      fields read as absent, and the author as the name actually shown. */
  function Normalized(a: Article): Article {
    a.(image := if HasImage(a) then a.image else None, author := Some(AuthorName(a.author)))
  }

  function ReadArticle(j: Json): Option<Article> {
    match (GetStr(j, "headline"), GetStr(j, "description"), GetStr(j, "url"),
           GetStr(j, "datePublished"), Get(j, "author"))
    case (Some(t), Some(d), Some(u), Some(p), Some(au)) =>
      (match GetStr(au, "name")
       case Some(n) => Some(Article(t, d, u, GetStr(j, "image"), p, Some(n)))
       case None => None)
    case _ => None
  }

  /** An Article document reads back as its input, up to the defaults. */
  lemma ArticleRoundTrip(a: Article)
    ensures ReadArticle(ArticleLD(a)) == Some(Normalized(a))
  {
  }
}
