/** fetch_feed and aggregate_all_feeds of rss_reader.py: reading feed items out of an
    already-parsed XML tree (RSS 2.0 items first, Atom entries as the fallback), turning every
    failure into no items, and collecting the items of every configured source by category. */
module RssReader {
  import opened Text
  import opened Dicts
  import opened HtmlText

  /** An element of the parsed tree. A tag in a namespace is written in Clark notation,
      "{uri}local", as ElementTree writes it. */
  datatype Element = Element(tag: string, text: Option<string>, attrs: map<string, string>,
                             children: seq<Element>)

  /** What the HTTP request and the XML parse produce. */
  datatype Response =
    | Parsed(root: Element)
    | Timeout
    | HttpError(status: nat)
    | RequestFailed
    | Malformed

  datatype FeedItem = FeedItem(title: string, link: Option<string>, summary: string,
                               published: Option<string>)

  const AtomNs := "{http://www.w3.org/2005/Atom}"
  const NoSummary := "No summary available"
  const MaxItems: nat := 10

  /** The summary fields of an RSS item, in the order they are tried. */
  const RssSummaryFields: seq<string> :=
    ["description", "summary", "content:encoded", ContentEncoded]

  /** The RSS content module's encoded field, in Clark notation. */
  const ContentNs := "{http://purl.org/rss/1.0/modules/content/}"
  const ContentEncoded := ContentNs + "encoded"

  /** The summary fields of an Atom entry, in the order they are tried. */
  const AtomSummaryFields: seq<string> := [AtomNs + "summary", AtomNs + "content"]

  /** Python's `text or default`: None and "" are both falsy. */
  function TextOr(t: Option<string>, default: string): (r: string)
    ensures t.Some? && t.value != [] ==> r == t.value
    ensures t.None? || t.value == [] ==> r == default
  {
    if t.Some? && t.value != [] then t.value else default
  }

  /** k is the first position in cs holding the tag. */
  predicate FirstWithTag(cs: seq<Element>, k: int, tag: string)
  {
    0 <= k < |cs| && cs[k].tag == tag && forall j :: 0 <= j < k ==> cs[j].tag != tag
  }

  /** e.find(tag) for a plain tag: the first direct child with that tag. */
  function Find(e: Element, tag: string): (r: Option<Element>)
    ensures r.Some? ==> exists k :: FirstWithTag(e.children, k, tag) && e.children[k] == r.value
    ensures r.None? ==> forall k :: 0 <= k < |e.children| ==> e.children[k].tag != tag
  {
    FindIn(e.children, tag)
  }

  function FindIn(cs: seq<Element>, tag: string): (r: Option<Element>)
    ensures r.Some? ==> exists k :: FirstWithTag(cs, k, tag) && cs[k] == r.value
    ensures r.None? ==> forall k :: 0 <= k < |cs| ==> cs[k].tag != tag
  {
    if cs == [] then None
    else if cs[0].tag == tag then
      assert FirstWithTag(cs, 0, tag);
      Some(cs[0])
    else
      var r := FindIn(cs[1..], tag);
      assert r.Some? ==> exists k :: FirstWithTag(cs, k, tag) && cs[k] == r.value by {
        if r.Some? {
          var k :| FirstWithTag(cs[1..], k, tag) && cs[1..][k] == r.value;
          assert FirstWithTag(cs, k + 1, tag) by {
            forall j | 0 <= j < k + 1 ensures cs[j].tag != tag {
              if j > 0 { assert cs[j] == cs[1..][j - 1]; }
            }
          }
        }
      }
      r
  }

  /** Which ElementTree answers `find` on a one-step name. CPython's default, the C
      accelerator, compares a name with no path character ('/', '*', '[', '@' or '.' outside
      Clark braces) directly against the child tags, so "content:encoded" is just a tag that
      no child of a parsed tree carries. The pure-Python ElementPath module reads a ':' outside
      braces as a namespace prefix and, with no prefix map given, raises. */
  datatype Runtime = Accelerated | PurePython

  datatype Lookup = Found(child: Option<Element>) | BadPrefix

  /** A ':' outside Clark braces: the pure-Python reading takes it for a namespace prefix. */
  predicate PrefixedName(path: string)
  {
    ':' in path && path[0] != '{'
  }

  /** e.find(path) for a one-step name without path characters. */
  function FindPath(rt: Runtime, e: Element, path: string): (r: Lookup)
    ensures r.BadPrefix? <==> rt == PurePython && PrefixedName(path)
    ensures r.Found? ==> r.child == Find(e, path)
  {
    if rt == PurePython && PrefixedName(path) then BadPrefix else Found(Find(e, path))
  }

  predicate HasText(el: Option<Element>)
  {
    el.Some? && el.value.text.Some? && el.value.text.value != []
  }

  /** The proper descendants of e in document order: what iter() yields after e itself. */
  function Descendants(e: Element): seq<Element>
    decreases e
  {
    DescendantsOf(e.children)
  }

  function DescendantsOf(cs: seq<Element>): seq<Element>
    decreases cs
  {
    if cs == [] then [] else [cs[0]] + Descendants(cs[0]) + DescendantsOf(cs[1..])
  }

  /** The elements with the tag, in their order: an element is kept exactly when it has the
      tag, and WithTagAppend keeps the order. */
  function WithTag(es: seq<Element>, tag: string): (r: seq<Element>)
    ensures |r| <= |es|
    ensures forall x :: x in r <==> x in es && x.tag == tag
  {
    if es == [] then []
    else
      assert forall x :: x in es <==> x == es[0] || x in es[1..];
      (if es[0].tag == tag then [es[0]] else []) + WithTag(es[1..], tag)
  }

  /** Filtering works piece by piece, so the kept elements keep their document order. */
  lemma {:induction false} WithTagAppend(xs: seq<Element>, ys: seq<Element>, tag: string)
    ensures WithTag(xs + ys, tag) == WithTag(xs, tag) + WithTag(ys, tag)
  {
    if xs == [] {
      assert xs + ys == ys;
    } else {
      assert (xs + ys)[0] == xs[0] && (xs + ys)[1..] == xs[1..] + ys;
      WithTagAppend(xs[1..], ys, tag);
    }
  }

  /** root.findall(".//" + tag) */
  function FindAll(root: Element, tag: string): seq<Element>
  {
    WithTag(Descendants(root), tag)
  }

  datatype Search = Picked(summary: string) | Raised

  /** The summary loop: the first field found with non-empty text gives the cleaned text;
      a field name the runtime rejects raises; no field at all gives "". */
  function SummarySearch(rt: Runtime, e: Element, fields: seq<string>): Search
  {
    if fields == [] then Picked("")
    else match FindPath(rt, e, fields[0])
      case BadPrefix => Raised
      case Found(el) =>
        if HasText(el) then Picked(CleanHtml(el.value.text.value))
        else SummarySearch(rt, e, fields[1..])
  }

  /** The loop over summary fields, with its break and the error that can escape it. */
  method PickSummary(rt: Runtime, e: Element, fields: seq<string>) returns (r: Search)
    ensures r == SummarySearch(rt, e, fields)
  {
    var i := 0;
    while i < |fields|
      invariant 0 <= i <= |fields|
      invariant SummarySearch(rt, e, fields) == SummarySearch(rt, e, fields[i..])
    {
      assert fields[i..][1..] == fields[i + 1..];
      var found := FindPath(rt, e, fields[i]);
      if found.BadPrefix? {
        return Raised;
      }
      var el := found.child;
      if el.Some? && el.value.text.Some? && el.value.text.value != [] {
        return Picked(CleanHtml(el.value.text.value));
      }
      i := i + 1;
    }
    return Picked("");
  }

  /** Which field names the pure-Python reading takes for a namespace prefix: only
      'content:encoded'. */
  lemma SummaryFieldNames()
    ensures !PrefixedName("description") && !PrefixedName("summary")
    ensures PrefixedName("content:encoded")
    ensures !PrefixedName(ContentEncoded)
    ensures !PrefixedName(AtomNs + "summary") && !PrefixedName(AtomNs + "content")
  {
    assert "content:encoded"[7] == ':';
    assert ContentEncoded[0] == '{';
    assert (AtomNs + "summary")[0] == '{' && (AtomNs + "content")[0] == '{';
  }

  /** The text of an element found with text. */
  function TextOf(el: Option<Element>): string
    requires HasText(el)
  {
    el.value.text.value
  }

  /** One field of the search whose lookup does not raise. */
  lemma SearchStep(rt: Runtime, e: Element, fields: seq<string>)
    requires fields != [] && !(rt == PurePython && PrefixedName(fields[0]))
    ensures SummarySearch(rt, e, fields) ==
      if HasText(Find(e, fields[0])) then Picked(CleanHtml(TextOf(Find(e, fields[0]))))
      else SummarySearch(rt, e, fields[1..])
  {
  }

  /** The RSS summary with CPython's accelerated find: the cleaned text of the first of
      description, summary, content:encoded and the namespaced content field that has text,
      or "" when none has; no lookup raises. */
  lemma RssSummaryChoice(e: Element)
    ensures SummarySearch(Accelerated, e, RssSummaryFields) == Picked(
      if HasText(Find(e, "description")) then CleanHtml(TextOf(Find(e, "description")))
      else if HasText(Find(e, "summary")) then CleanHtml(TextOf(Find(e, "summary")))
      else if HasText(Find(e, "content:encoded")) then
        CleanHtml(TextOf(Find(e, "content:encoded")))
      else if HasText(Find(e, ContentEncoded)) then CleanHtml(TextOf(Find(e, ContentEncoded)))
      else "")
  {
    var f0 := RssSummaryFields;
    var f1 := f0[1..];
    var f2 := f1[1..];
    var f3 := f2[1..];
    assert f0[0] == "description" && f1[0] == "summary";
    assert f2[0] == "content:encoded" && f3[0] == ContentEncoded && f3[1..] == [];
    SearchStep(Accelerated, e, f0);
    SearchStep(Accelerated, e, f1);
    SearchStep(Accelerated, e, f2);
    SearchStep(Accelerated, e, f3);
  }

  /** The RSS summary with the pure-Python ElementPath: description, then summary; the
      prefixed content:encoded name raises, so the namespaced content field after it is never
      consulted. */
  lemma RssSummaryChoicePure(e: Element)
    ensures SummarySearch(PurePython, e, RssSummaryFields) ==
      if HasText(Find(e, "description")) then
        Picked(CleanHtml(TextOf(Find(e, "description"))))
      else if HasText(Find(e, "summary")) then
        Picked(CleanHtml(TextOf(Find(e, "summary"))))
      else Raised
  {
    SummaryFieldNames();
    var f0 := RssSummaryFields;
    var f1 := f0[1..];
    var f2 := f1[1..];
    assert f0[0] == "description" && f1[0] == "summary" && f2[0] == "content:encoded";
    SearchStep(PurePython, e, f0);
    SearchStep(PurePython, e, f1);
    assert FindPath(PurePython, e, f2[0]) == BadPrefix;
  }

  /** The Atom summary: summary, then content, or "" when neither has text; the Clark names
      never raise, whatever the runtime. */
  lemma AtomSummaryChoice(rt: Runtime, e: Element)
    ensures SummarySearch(rt, e, AtomSummaryFields) == Picked(
      if HasText(Find(e, AtomNs + "summary")) then CleanHtml(TextOf(Find(e, AtomNs + "summary")))
      else if HasText(Find(e, AtomNs + "content")) then
        CleanHtml(TextOf(Find(e, AtomNs + "content")))
      else "")
  {
    SummaryFieldNames();
    var f0 := AtomSummaryFields;
    var f1 := f0[1..];
    assert f0[0] == AtomNs + "summary" && f1[0] == AtomNs + "content" && f1[1..] == [];
    SearchStep(rt, e, f0);
    SearchStep(rt, e, f1);
  }

  /** pub_date_elem.text if the element exists, else 'Unknown'. */
  function Published(el: Option<Element>): Option<string>
  {
    if el.Some? then el.value.text else Some("Unknown")
  }

  /** The description fallback after the summary loop. */
  function DescriptionFallback(e: Element, summary: string): string
  {
    if summary != [] then summary
    else match Find(e, "description")
      case Some(d) => CleanHtml(TextOr(d.text, ""))
      case None => summary
  }

  /** The description fallback never changes the summary the loop picked: when that is "",
      the description either is missing, has no text, or is the field that cleaned to "". */
  lemma DescriptionFallbackInert(rt: Runtime, e: Element, s: string)
    requires SummarySearch(rt, e, RssSummaryFields) == Picked(s)
    ensures DescriptionFallback(e, s) == s
  {
    if rt == Accelerated {
      RssSummaryChoice(e);
    } else {
      RssSummaryChoicePure(e);
    }
  }

  datatype Step = Raise | Skip | Emit(item: FeedItem)

  /** What one RSS item contributes. */
  function RssStep(rt: Runtime, e: Element): Step
  {
    match SummarySearch(rt, e, RssSummaryFields)
    case Raised => Raise
    case Picked(s0) =>
      var summary := DescriptionFallback(e, s0);
      var title := Find(e, "title");
      var link := Find(e, "link");
      if title.Some? && link.Some? then
        Emit(FeedItem(CleanHtml(TextOr(title.value.text, "No title")),
                      Some(TextOr(link.value.text, "")),
                      if summary == [] then NoSummary else summary,
                      Published(Find(e, "pubDate"))))
      else Skip
  }

  /** One RSS item: it raises only under the pure-Python lookup, exactly when neither
      description nor summary has text; it is emitted only with both a title and a link
      child, with the summary the search picked (the placeholder when that is ""), the
      cleaned title, the link text or "", and the pubDate text or 'Unknown'. */
  lemma RssStepFields(rt: Runtime, e: Element)
    ensures RssStep(rt, e) == Raise <==>
      rt == PurePython && !HasText(Find(e, "description")) && !HasText(Find(e, "summary"))
    ensures RssStep(rt, e).Emit? <==>
      RssStep(rt, e) != Raise && Find(e, "title").Some? && Find(e, "link").Some?
    ensures RssStep(rt, e).Emit? ==>
      var it := RssStep(rt, e).item;
      var picked := SummarySearch(rt, e, RssSummaryFields);
      && picked.Picked?
      && it.summary == (if picked.summary == [] then NoSummary else picked.summary)
      && it.title == CleanHtml(TextOr(Find(e, "title").value.text, "No title"))
      && it.link == Some(TextOr(Find(e, "link").value.text, ""))
      && it.published == Published(Find(e, "pubDate"))
  {
    if rt == Accelerated {
      RssSummaryChoice(e);
    } else {
      RssSummaryChoicePure(e);
    }
    var picked := SummarySearch(rt, e, RssSummaryFields);
    if picked.Picked? {
      DescriptionFallbackInert(rt, e, picked.summary);
    }
  }

  /** One RSS item, as the loop body does it. */
  method ReadRssItem(rt: Runtime, e: Element) returns (r: Step)
    ensures r == RssStep(rt, e)
  {
    var title := Find(e, "title");
    var link := Find(e, "link");
    var found := PickSummary(rt, e, RssSummaryFields);
    if found.Raised? {
      return Raise;
    }
    var summary := found.summary;
    if summary == [] {
      var desc := Find(e, "description");
      if desc.Some? {
        summary := CleanHtml(TextOr(desc.value.text, ""));
      }
    }
    var pub := Find(e, "pubDate");
    if title.Some? && link.Some? {
      r := Emit(FeedItem(CleanHtml(TextOr(title.value.text, "No title")),
                         Some(TextOr(link.value.text, "")),
                         if summary == [] then NoSummary else summary,
                         Published(pub)));
    } else {
      r := Skip;
    }
  }

  /** An RSS item with a title and a link and no other child. */
  function BareItem(): Element
  {
    Element("item", None, map[], [Element("title", Some("T"), map[], []),
                                  Element("link", Some("L"), map[], [])])
  }

  /** The two runtimes part on a bare item: the accelerated find gives it the placeholder
      summary and 'Unknown' for its date, while the pure-Python lookup raises. */
  lemma BareItemRuntimes()
    ensures RssStep(Accelerated, BareItem()).Emit?
    ensures RssStep(Accelerated, BareItem()).item.summary == NoSummary
    ensures RssStep(Accelerated, BareItem()).item.link == Some("L")
    ensures RssStep(Accelerated, BareItem()).item.published == Some("Unknown")
    ensures RssStep(PurePython, BareItem()) == Raise
  {
    var e := BareItem();
    assert Find(e, "description") == None && Find(e, "summary") == None;
    assert Find(e, "content:encoded") == None && Find(e, ContentEncoded) == None;
    assert Find(e, "pubDate") == None;
    assert Find(e, "title").Some? && Find(e, "link") == Some(e.children[1]);
    RssSummaryChoice(e);
    RssStepFields(Accelerated, e);
    RssStepFields(PurePython, e);
  }

  /** The RSS pass over a list of items: None when some item raises. */
  function RssPass(rt: Runtime, es: seq<Element>): Option<seq<FeedItem>>
  {
    if es == [] then Some([])
    else match RssPass(rt, es[..|es| - 1])
      case None => None
      case Some(acc) =>
        match RssStep(rt, es[|es| - 1])
        case Raise => None
        case Skip => Some(acc)
        case Emit(it) => Some(acc + [it])
  }

  /** The RSS pass keeps at most one item per input element, each emitted by some element. */
  lemma {:induction false} RssPassBound(rt: Runtime, es: seq<Element>)
    requires RssPass(rt, es).Some?
    ensures |RssPass(rt, es).value| <= |es|
    ensures forall k :: 0 <= k < |RssPass(rt, es).value| ==>
      exists e :: e in es && RssStep(rt, e) == Emit(RssPass(rt, es).value[k])
    decreases |es|
  {
    if es != [] {
      var init := es[..|es| - 1];
      RssPassBound(rt, init);
      forall k | 0 <= k < |RssPass(rt, es).value|
        ensures exists e :: e in es && RssStep(rt, e) == Emit(RssPass(rt, es).value[k])
      {
        if k < |RssPass(rt, init).value| {
          var e :| e in init && RssStep(rt, e) == Emit(RssPass(rt, init).value[k]);
          assert e in es;
        } else {
          assert es[|es| - 1] in es;
        }
      }
    }
  }

  /** One raising item anywhere makes the whole pass raise. */
  lemma {:induction false} RssPassRaises(rt: Runtime, es: seq<Element>, k: nat)
    requires k < |es| && RssStep(rt, es[k]) == Raise
    ensures RssPass(rt, es).None?
    decreases |es|
  {
    if k < |es| - 1 {
      assert es[..|es| - 1][k] == es[k];
      RssPassRaises(rt, es[..|es| - 1], k);
    }
  }

  /** With the accelerated find the RSS pass never raises. */
  lemma {:induction false} RssPassAccelerated(es: seq<Element>)
    ensures RssPass(Accelerated, es).Some?
    decreases |es|
  {
    if es != [] {
      RssPassAccelerated(es[..|es| - 1]);
      RssStepFields(Accelerated, es[|es| - 1]);
    }
  }

  /** What one Atom entry contributes: an entry needs only a title. */
  function AtomStep(rt: Runtime, e: Element): Option<FeedItem>
  {
    var s := SummarySearch(rt, e, AtomSummaryFields);
    var summary := if s.Picked? then s.summary else "";
    var title := Find(e, AtomNs + "title");
    var link := Find(e, AtomNs + "link");
    if title.Some? then
      Some(FeedItem(CleanHtml(TextOr(title.value.text, "No title")),
                    if link.Some? then
                      (if "href" in link.value.attrs then Some(link.value.attrs["href"]) else None)
                    else Some(""),
                    if summary == [] then NoSummary else summary,
                    Published(Find(e, AtomNs + "updated"))))
    else None
  }

  /** One Atom entry, as the loop body does it. */
  method ReadAtomEntry(rt: Runtime, e: Element) returns (r: Option<FeedItem>)
    ensures r == AtomStep(rt, e)
  {
    var title := Find(e, AtomNs + "title");
    var link := Find(e, AtomNs + "link");
    var found := PickSummary(rt, e, AtomSummaryFields);
    AtomSummaryChoice(rt, e);
    var summary := found.summary;
    var updated := Find(e, AtomNs + "updated");
    if title.Some? {
      var href := if link.Some? then
          (if "href" in link.value.attrs then Some(link.value.attrs["href"]) else None)
        else Some("");
      r := Some(FeedItem(CleanHtml(TextOr(title.value.text, "No title")), href,
                         if summary == [] then NoSummary else summary,
                         Published(updated)));
    } else {
      r := None;
    }
  }

  function AtomPass(rt: Runtime, es: seq<Element>): (r: seq<FeedItem>)
    ensures |r| <= |es|
  {
    if es == [] then []
    else
      var last := AtomStep(rt, es[|es| - 1]);
      AtomPass(rt, es[..|es| - 1]) + (if last.Some? then [last.value] else [])
  }

  /** Every Atom item comes from an entry with a title, with the cleaned title text, the
      first link's href (None when the link has none, "" when there is no link), the summary
      the search picked (the placeholder when that is "") and the updated text or
      'Unknown'. */
  lemma AtomStepFields(rt: Runtime, e: Element)
    ensures AtomStep(rt, e).Some? <==> Find(e, AtomNs + "title").Some?
    ensures AtomStep(rt, e).Some? ==>
      var it := AtomStep(rt, e).value;
      var link := Find(e, AtomNs + "link");
      var s := SummarySearch(rt, e, AtomSummaryFields);
      && s.Picked?
      && it.summary == (if s.summary == [] then NoSummary else s.summary)
      && it.published == Published(Find(e, AtomNs + "updated"))
      && it.title == CleanHtml(TextOr(Find(e, AtomNs + "title").value.text, "No title"))
      && (link.None? ==> it.link == Some(""))
      && (link.Some? ==> (it.link.Some? <==> "href" in link.value.attrs))
      && (link.Some? && it.link.Some? ==> it.link.value == link.value.attrs["href"])
  {
    AtomSummaryChoice(rt, e);
  }

  /** fetch_feed on the outcome of the request: the first ten RSS items; if they give no
      item, the first ten Atom entries; no items for any failure, including a raising
      summary lookup. */
  function FetchedItems(rt: Runtime, resp: Response): seq<FeedItem>
  {
    if resp.Parsed? then DocumentItems(rt, resp.root) else []
  }

  function DocumentItems(rt: Runtime, root: Element): seq<FeedItem>
  {
    match RssPass(rt, Take(FindAll(root, "item"), MaxItems))
    case None => []
    case Some(rss) =>
      if rss != [] then Take(rss, MaxItems)
      else Take(AtomPass(rt, Take(FindAll(root, AtomNs + "entry"), MaxItems)), MaxItems)
  }

  /** Atom entries are read only when the RSS pass produced no item: a non-empty RSS pass is
      the result as it is, and an empty one gives way to the Atom pass. */
  lemma AtomOnlyWithoutRss(rt: Runtime, root: Element)
    ensures RssPass(rt, Take(FindAll(root, "item"), MaxItems)) == Some([]) ==>
      FetchedItems(rt, Parsed(root)) ==
        AtomPass(rt, Take(FindAll(root, AtomNs + "entry"), MaxItems))
    ensures var rss := RssPass(rt, Take(FindAll(root, "item"), MaxItems));
      rss.Some? && rss.value != [] ==> FetchedItems(rt, Parsed(root)) == rss.value
  {
    var es := Take(FindAll(root, "item"), MaxItems);
    if RssPass(rt, es).Some? {
      RssPassBound(rt, es);
    }
  }

  /** One raising item among the first ten makes the whole fetch give no items: the error
      is caught around the whole read. */
  lemma RaisingItemEmptiesFeed(rt: Runtime, root: Element, k: nat)
    requires k < |Take(FindAll(root, "item"), MaxItems)|
    requires RssStep(rt, Take(FindAll(root, "item"), MaxItems)[k]) == Raise
    ensures FetchedItems(rt, Parsed(root)) == []
  {
    RssPassRaises(rt, Take(FindAll(root, "item"), MaxItems), k);
  }

  /** Whatever format matched, at most ten items, each with a non-empty summary; a failed
      request, and an RSS pass that raised, give none. */
  lemma FetchedItemsShape(rt: Runtime, resp: Response)
    ensures |FetchedItems(rt, resp)| <= MaxItems
    ensures !resp.Parsed? ==> FetchedItems(rt, resp) == []
    ensures resp.Parsed? && RssPass(rt, Take(FindAll(resp.root, "item"), MaxItems)).None? ==>
      FetchedItems(rt, resp) == []
    ensures forall k :: 0 <= k < |FetchedItems(rt, resp)| ==>
      FetchedItems(rt, resp)[k].summary != []
  {
    if resp.Parsed? {
      var es := Take(FindAll(resp.root, "item"), MaxItems);
      match RssPass(rt, es)
      case None =>
      case Some(rss) =>
        RssPassBound(rt, es);
        if rss != [] {
          forall k | 0 <= k < |rss| ensures rss[k].summary != [] {
            var e :| e in es && RssStep(rt, e) == Emit(rss[k]);
            RssStepFields(rt, e);
          }
        } else {
          var entries := Take(FindAll(resp.root, AtomNs + "entry"), MaxItems);
          AtomPassSummaries(rt, entries);
        }
    }
  }

  lemma {:induction false} AtomPassSummaries(rt: Runtime, es: seq<Element>)
    ensures forall k :: 0 <= k < |AtomPass(rt, es)| ==> AtomPass(rt, es)[k].summary != []
    decreases |es|
  {
    if es != [] {
      AtomPassSummaries(rt, es[..|es| - 1]);
      AtomStepFields(rt, es[|es| - 1]);
    }
  }

  lemma RssPassStep(rt: Runtime, es: seq<Element>, i: nat)
    requires i < |es|
    ensures RssPass(rt, es[..i + 1]) ==
      match RssPass(rt, es[..i])
      case None => None
      case Some(acc) =>
        match RssStep(rt, es[i])
        case Raise => None
        case Skip => Some(acc)
        case Emit(it) => Some(acc + [it])
  {
    assert es[..i + 1][..i] == es[..i];
  }

  /** The RSS loop over the first ten items; `raised` when an item's summary lookup raises. */
  method ReadRssItems(rt: Runtime, es: seq<Element>) returns (items: seq<FeedItem>, raised: bool)
    ensures raised <==> RssPass(rt, es).None?
    ensures !raised ==> RssPass(rt, es) == Some(items)
  {
    items := [];
    var i := 0;
    while i < |es|
      invariant 0 <= i <= |es|
      invariant RssPass(rt, es[..i]) == Some(items)
    {
      RssPassStep(rt, es, i);
      var step := ReadRssItem(rt, es[i]);
      if step.Raise? {
        RssPassRaises(rt, es, i);
        return [], true;
      } else if step.Emit? {
        items := items + [step.item];
      }
      i := i + 1;
    }
    assert es[..i] == es;
    raised := false;
  }

  lemma AtomPassStep(rt: Runtime, es: seq<Element>, j: nat)
    requires j < |es|
    ensures AtomPass(rt, es[..j + 1]) ==
      AtomPass(rt, es[..j]) +
      (if AtomStep(rt, es[j]).Some? then [AtomStep(rt, es[j]).value] else [])
  {
    assert es[..j + 1][..j] == es[..j];
  }

  /** The Atom loop over the first ten entries. */
  method ReadAtomEntries(rt: Runtime, es: seq<Element>) returns (items: seq<FeedItem>)
    ensures items == AtomPass(rt, es)
  {
    items := [];
    var j := 0;
    while j < |es|
      invariant 0 <= j <= |es|
      invariant AtomPass(rt, es[..j]) == items
    {
      AtomPassStep(rt, es, j);
      var it := ReadAtomEntry(rt, es[j]);
      if it.Some? {
        items := items + [it.value];
      }
      j := j + 1;
    }
    assert es[..j] == es;
  }

  /** fetch_feed: the RSS loop, then the Atom loop when it found nothing, then the cut to ten
      items; under the pure-Python lookup an item whose summary lookup raises ends the whole
      fetch with no items. */
  method FetchFeed(rt: Runtime, resp: Response) returns (items: seq<FeedItem>)
    ensures items == FetchedItems(rt, resp)
    ensures |items| <= MaxItems
  {
    FetchedItemsShape(rt, resp);
    if !resp.Parsed? {
      return [];
    }
    var root := resp.root;
    var raised;
    items, raised := ReadRssItems(rt, Take(FindAll(root, "item"), MaxItems));
    if raised {
      return [];
    }
    if items == [] {
      items := ReadAtomEntries(rt, Take(FindAll(root, AtomNs + "entry"), MaxItems));
    }
    items := Take(items, MaxItems);
  }

  /** One configured source: an entry of content_sources.json. */
  datatype Source = Source(category: string, name: string, url: string)

  type Content = Dict<string, Dict<string, seq<FeedItem>>>

  /** How many items carry a summary other than the placeholder. */
  function WithSummaries(items: seq<FeedItem>): (n: nat)
    ensures n <= |items|
  {
    if items == [] then 0
    else (if items[0].summary != NoSummary then 1 else 0) + WithSummaries(items[1..])
  }

  /** The count reaches the item count exactly when no item carries the placeholder. */
  lemma {:induction false} WithSummariesAll(items: seq<FeedItem>)
    ensures WithSummaries(items) == |items| <==>
      forall k :: 0 <= k < |items| ==> items[k].summary != NoSummary
  {
    if items != [] {
      WithSummariesAll(items[1..]);
      assert forall k :: 1 <= k < |items| ==> items[k] == items[1..][k - 1];
    }
  }

  /** all_content[category][name] = items */
  function Store(content: Content, src: Source, items: seq<FeedItem>): Content
  {
    Put(content, src.category, Put(GetOr(content, src.category, []), src.name, items))
  }

  /** The map after the first sources have been fetched and stored. */
  function Aggregate(rt: Runtime, sources: seq<Source>, net: string -> Response): Content
  {
    if sources == [] then []
    else
      var last := sources[|sources| - 1];
      Store(Aggregate(rt, sources[..|sources| - 1], net), last, FetchedItems(rt, net(last.url)))
  }

  function TotalItems(rt: Runtime, sources: seq<Source>, net: string -> Response): nat
  {
    if sources == [] then 0
    else
      var items := FetchedItems(rt, net(sources[|sources| - 1].url));
      TotalItems(rt, sources[..|sources| - 1], net) + |items|
  }

  function TotalWithSummaries(rt: Runtime, sources: seq<Source>, net: string -> Response)
    : nat
  {
    if sources == [] then 0
    else
      var items := FetchedItems(rt, net(sources[|sources| - 1].url));
      TotalWithSummaries(rt, sources[..|sources| - 1], net) + WithSummaries(items)
  }

  /** The with-summaries total never exceeds the item total. */
  lemma {:induction false} TotalsOrdered(rt: Runtime, sources: seq<Source>,
                                         net: string -> Response)
    ensures TotalWithSummaries(rt, sources, net) <= TotalItems(rt, sources, net)
    decreases |sources|
  {
    if sources != [] {
      TotalsOrdered(rt, sources[..|sources| - 1], net);
    }
  }

  /** The reference reading of the result: the items of the last source with this category
      and name, or nothing when no source has them. */
  function LastFetch(rt: Runtime, sources: seq<Source>, net: string -> Response,
                     category: string, name: string): Option<seq<FeedItem>>
  {
    if sources == [] then None
    else
      var last := sources[|sources| - 1];
      if last.category == category && last.name == name then
        Some(FetchedItems(rt, net(last.url)))
      else LastFetch(rt, sources[..|sources| - 1], net, category, name)
  }

  /** The categories of the sources, in order, repeats included. */
  function Categories(sources: seq<Source>): seq<string>
  {
    if sources == [] then []
    else Categories(sources[..|sources| - 1]) + [sources[|sources| - 1].category]
  }

  function Lookup2(content: Content, category: string, name: string): Option<seq<FeedItem>>
  {
    match Get(content, category)
    case None => None
    case Some(d) => Get(d, name)
  }

  /** Storing one source's items changes only its own category and name. */
  lemma StoreLookup(content: Content, src: Source, items: seq<FeedItem>, category: string,
                    name: string)
    ensures Lookup2(Store(content, src, items), category, name) ==
      if src.category == category && src.name == name then Some(items)
      else Lookup2(content, category, name)
  {
    var inner := GetOr(content, src.category, []);
    PutGet(content, src.category, Put(inner, src.name, items), category);
    PutGet(inner, src.name, items, name);
  }

  /** result[category][name] holds the items of the last source with that category and
      name: a later source replaces an earlier one. */
  lemma {:induction false} AggregateLookup(rt: Runtime, sources: seq<Source>,
                                           net: string -> Response, category: string,
                                           name: string)
    ensures Lookup2(Aggregate(rt, sources, net), category, name) ==
      LastFetch(rt, sources, net, category, name)
    decreases |sources|
  {
    if sources != [] {
      var init := sources[..|sources| - 1];
      var last := sources[|sources| - 1];
      AggregateLookup(rt, init, net, category, name);
      StoreLookup(Aggregate(rt, init, net), last, FetchedItems(rt, net(last.url)), category,
                  name);
    }
  }

  /** The result has a category exactly when some source has it. */
  lemma {:induction false} AggregateCategories(rt: Runtime, sources: seq<Source>,
                                               net: string -> Response, category: string)
    ensures category in Keys(Aggregate(rt, sources, net)) <==> category in Categories(sources)
    decreases |sources|
  {
    if sources != [] {
      AggregateCategories(rt, sources[..|sources| - 1], net, category);
    }
  }

  /** One more source: its items are stored and counted. */
  lemma AggregateStep(rt: Runtime, sources: seq<Source>, net: string -> Response, i: nat)
    requires i < |sources|
    ensures Aggregate(rt, sources[..i + 1], net) ==
      Store(Aggregate(rt, sources[..i], net), sources[i], FetchedItems(rt, net(sources[i].url)))
    ensures TotalItems(rt, sources[..i + 1], net) ==
      TotalItems(rt, sources[..i], net) + |FetchedItems(rt, net(sources[i].url))|
    ensures TotalWithSummaries(rt, sources[..i + 1], net) ==
      TotalWithSummaries(rt, sources[..i], net) +
      WithSummaries(FetchedItems(rt, net(sources[i].url)))
  {
    assert sources[..i + 1][..i] == sources[..i];
  }

  /** The counting of one fetched feed: only a non-empty one is counted. */
  method Tally(totalItems: nat, totalWithSummaries: nat, items: seq<FeedItem>)
    returns (newItems: nat, newWithSummaries: nat)
    ensures newItems == totalItems + |items|
    ensures newWithSummaries == totalWithSummaries + WithSummaries(items)
  {
    newItems, newWithSummaries := totalItems, totalWithSummaries;
    if items != [] {
      var withSummaries := WithSummaries(items);
      newItems := newItems + |items|;
      newWithSummaries := newWithSummaries + withSummaries;
    }
  }

  /** The loop over the configured sources: each is fetched in turn, stored under its
      category and name, and counted. */
  method FetchAll(rt: Runtime, sources: seq<Source>, net: string -> Response)
    returns (content: Content, totalItems: nat, totalWithSummaries: nat)
    ensures content == Aggregate(rt, sources, net)
    ensures totalItems == TotalItems(rt, sources, net)
    ensures totalWithSummaries == TotalWithSummaries(rt, sources, net)
  {
    content, totalItems, totalWithSummaries := [], 0, 0;
    var i := 0;
    while i < |sources|
      invariant 0 <= i <= |sources|
      invariant content == Aggregate(rt, sources[..i], net)
      invariant totalItems == TotalItems(rt, sources[..i], net)
      invariant totalWithSummaries == TotalWithSummaries(rt, sources[..i], net)
    {
      AggregateStep(rt, sources, net, i);
      var src := sources[i];
      var items := FetchFeed(rt, net(src.url));
      totalItems, totalWithSummaries := Tally(totalItems, totalWithSummaries, items);
      content := Store(content, src, items);
      i := i + 1;
    }
    assert sources[..i] == sources;
  }

  /** aggregate_all_feeds: a missing sources file gives the empty map; otherwise every
      source is fetched, stored and counted, and the with-summaries total never exceeds the
      item total. */
  method AggregateAllFeeds(rt: Runtime, sourcesFile: Option<seq<Source>>,
                           net: string -> Response)
    returns (content: Content, totalItems: nat, totalWithSummaries: nat)
    ensures sourcesFile.None? ==> content == [] && totalItems == 0
    ensures sourcesFile.Some? ==>
      content == Aggregate(rt, sourcesFile.value, net) &&
      totalItems == TotalItems(rt, sourcesFile.value, net) &&
      totalWithSummaries == TotalWithSummaries(rt, sourcesFile.value, net)
    ensures totalWithSummaries <= totalItems
  {
    if sourcesFile.None? {
      return [], 0, 0;
    }
    content, totalItems, totalWithSummaries := FetchAll(rt, sourcesFile.value, net);
    TotalsOrdered(rt, sourcesFile.value, net);
  }
}
