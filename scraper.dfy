/** The platform's API-reference scraper, after the pages are fetched and
    parsed: which links name methods, the method name and category taken
    from a link, the de-duplicated method list, the details read from a
    method's page, the merge of those details into the list, and the
    grouping by category.

    A parsed page is given as the few things the scraper reads from it: the
    listing page as its links (`href`, stripped text), a method page as its
    meta description, the paragraph after its first `h1`, its `h2` headings
    (each with the rows of the first table after it), and its code blocks.
    `None` stands for a fetch that failed. Resolving a URL against the base
    (`urljoin`) is a parameter. */
module DocsScraper {
  import opened Wrappers
  import Py

  const MethodsPath: string := "/reference/methods/"
  const BaseUrl: string := "https://docs.slack.dev/reference/methods/"

  /** One `<a href>` of the listing page. */
  datatype Link = Link(href: string, text: string)

  /** One parameter row of a method page. */
  datatype Parameter = Parameter(name: string, description: string, required: bool)

  /** What `scrape_method_details` adds to a method. */
  datatype Extra = Extra(parameters: seq<Parameter>, exampleRequest: string, exampleResponse: string)

  /** One method dictionary; `extra` is present once details were merged in. */
  datatype Method = Method(name: string, category: string, url: string, description: string, extra: Option<Extra>)

  // ------------------------------------------------------------ the links

  /** A link names a method when its `href` contains the methods path and is not exactly it. */
  predicate IsMethodLink(href: string) {
    Py.Contains(href, MethodsPath) && href != MethodsPath
  }

  /** `href.split('/reference/methods/')[-1].rstrip('/')`: the text after the
      last methods path, without trailing slashes. */
  function MethodName(href: string): (name: string)
    ensures var last := Py.LastPiece(href, MethodsPath);
      && |name| <= |last| <= |href| && last == href[|href| - |last|..]
      && (forall j :: !Py.OccursAt(last, MethodsPath, j))
      && name == last[..|name|]
      && (name == "" || name[|name| - 1] != '/')
      && (forall i :: |name| <= i < |last| ==> last[i] == '/')
  {
    Py.RStrip(Py.LastPiece(href, MethodsPath), '/')
  }

  /** `method_name.split('.')[0]`: the text before the first dot, or the
      whole name when it has none. */
  function Category(name: string): (c: string)
    ensures Py.StartsWith(name, c) && '.' !in c
    ensures |c| < |name| ==> name[|c|] == '.'
    ensures '.' !in name ==> c == name
  {
    Py.Split(name, '.')[0]
  }

  /** `parts[0] if parts else 'unknown'`: the fallback is never taken, since
      a split always yields at least one part. */
  lemma CategoryNeverUnknown(name: string)
    ensures Py.Split(name, '.') != []
  {
  }

  /** The dictionary `scrape_methods_list` makes of a method link. */
  function EntryOf(link: Link, urlJoin: (string, string) -> string): (m: Method)
    ensures m.name == MethodName(link.href) && m.category == Category(m.name)
    ensures m.url == urlJoin(BaseUrl, link.href) && m.description == link.text && m.extra.None?
  {
    var name := MethodName(link.href);
    Method(name, Category(name), urlJoin(BaseUrl, link.href), link.text, None)
  }

  /** The link test of `scrape_methods_list`, on a whole link. */
  function LinkIsMethod(link: Link): bool {
    IsMethodLink(link.href)
  }

  /** The entry of a link, for a fixed URL join. */
  function EntryWith(urlJoin: (string, string) -> string): Link -> Method {
    link => EntryOf(link, urlJoin)
  }

  /** The `methods` list before de-duplication: one entry per method link, in page order. */
  function Extracted(links: seq<Link>, urlJoin: (string, string) -> string): (ms: seq<Method>)
    ensures |ms| <= |links|
  {
    Py.FilterMap(links, LinkIsMethod, EntryWith(urlJoin))
  }

  /** The positions of the method links on the page. */
  function LinkIndices(links: seq<Link>): seq<nat> {
    Py.KeptIndices(links, LinkIsMethod)
  }

  /** The extracted entries are exactly the entries of the method links, in page order. */
  lemma ExtractedAtIndices(links: seq<Link>, urlJoin: (string, string) -> string)
    ensures forall j :: 0 <= j < |LinkIndices(links)| ==> LinkIndices(links)[j] < |links| && IsMethodLink(links[LinkIndices(links)[j]].href)
    ensures forall j, k :: 0 <= j < k < |LinkIndices(links)| ==> LinkIndices(links)[j] < LinkIndices(links)[k]
    ensures forall i :: 0 <= i < |links| && IsMethodLink(links[i].href) ==> i in LinkIndices(links)
    ensures |Extracted(links, urlJoin)| == |LinkIndices(links)|
    ensures forall j :: 0 <= j < |LinkIndices(links)| ==>
      Extracted(links, urlJoin)[j] == EntryOf(links[LinkIndices(links)[j]], urlJoin)
  {
    Py.FilterMapAt(links, LinkIsMethod, EntryWith(urlJoin));
    var r := LinkIndices(links);
    assert forall i :: 0 <= i < |links| ==> LinkIsMethod(links[i]) == IsMethodLink(links[i].href);
  }

  // --------------------------------------------------------- de-duplication

  function Names(ms: seq<Method>): set<string> {
    set i | 0 <= i < |ms| :: ms[i].name
  }

  lemma NamesAppend(ms: seq<Method>, m: Method)
    ensures Names(ms + [m]) == Names(ms) + {m.name}
  {
    var s := ms + [m];
    assert s[|ms|] == m;
    assert forall i :: 0 <= i < |ms| ==> s[i] == ms[i];
  }

  /** The list `seen`/`unique_methods` produce: each name once, at its first occurrence. */
  function Dedupe(ms: seq<Method>): seq<Method>
    decreases |ms|
  {
    if ms == [] then []
    else
      var d := Dedupe(ms[..|ms| - 1]);
      var m := ms[|ms| - 1];
      if m.name in Names(d) then d else d + [m]
  }

  /** Where the first method called `name` sits in `ms`. */
  function FirstIndex(ms: seq<Method>, name: string): (i: nat)
    requires name in Names(ms)
    ensures i < |ms| && ms[i].name == name
    ensures forall j :: 0 <= j < i ==> ms[j].name != name
    decreases |ms|
  {
    var p := ms[..|ms| - 1];
    NamesAppend(p, ms[|ms| - 1]);
    assert ms == p + [ms[|ms| - 1]];
    if name in Names(p) then
      var i := FirstIndex(p, name);
      assert ms[i] == p[i];
      i
    else
      assert forall j :: 0 <= j < |p| ==> p[j].name in Names(p);
      |ms| - 1
  }

  /** De-duplication keeps the same names, and each kept method is the
      first method of that name. */
  lemma {:induction false} DedupeKeepsFirst(ms: seq<Method>)
    ensures var d := Dedupe(ms);
      && Names(d) == Names(ms)
      && (forall j :: 0 <= j < |d| ==> d[j].name in Names(ms) && d[j] == ms[FirstIndex(ms, d[j].name)])
    decreases |ms|
  {
    if ms != [] {
      var p := ms[..|ms| - 1];
      var m := ms[|ms| - 1];
      assert ms == p + [m];
      DedupeKeepsFirst(p);
      NamesAppend(p, m);
      var dp := Dedupe(p);
      var d := Dedupe(ms);
      forall j | 0 <= j < |dp| ensures FirstIndex(ms, dp[j].name) == FirstIndex(p, dp[j].name) {
        FirstIndexPrefix(p, m, dp[j].name);
      }
      if m.name !in Names(dp) {
        NamesAppend(dp, m);
        assert d == dp + [m];
        assert forall j :: 0 <= j < |dp| ==> d[j] == dp[j];
        assert FirstIndex(ms, m.name) == |p|;
      }
    }
  }

  /** The kept methods are in the order of their names' first occurrences;
      in particular no name is kept twice. */
  lemma {:induction false} DedupeInOrder(ms: seq<Method>)
    ensures var d := Dedupe(ms);
      forall j, k :: 0 <= j < k < |d| ==>
        d[j].name in Names(ms) && d[k].name in Names(ms) && FirstIndex(ms, d[j].name) < FirstIndex(ms, d[k].name)
    decreases |ms|
  {
    if ms != [] {
      var p := ms[..|ms| - 1];
      var m := ms[|ms| - 1];
      assert ms == p + [m];
      DedupeInOrder(p);
      DedupeKeepsFirst(p);
      NamesAppend(p, m);
      var dp := Dedupe(p);
      var d := Dedupe(ms);
      forall j | 0 <= j < |dp| ensures FirstIndex(ms, dp[j].name) == FirstIndex(p, dp[j].name) < |p| {
        FirstIndexPrefix(p, m, dp[j].name);
      }
      if m.name !in Names(dp) {
        assert d == dp + [m];
        assert forall j :: 0 <= j < |dp| ==> d[j] == dp[j];
        assert FirstIndex(ms, m.name) == |p|;
      }
    }
  }

  lemma FirstIndexPrefix(p: seq<Method>, m: Method, n: string)
    requires n in Names(p)
    ensures n in Names(p + [m]) && FirstIndex(p + [m], n) == FirstIndex(p, n)
  {
    NamesAppend(p, m);
    var i := FirstIndex(p, n);
    var k := FirstIndex(p + [m], n);
    assert (p + [m])[i] == p[i];
    assert forall j :: 0 <= j < |p| ==> (p + [m])[j] == p[j];
  }

  /** No two kept methods share a name. */
  lemma DedupeDistinct(ms: seq<Method>)
    ensures forall j, k :: 0 <= j < k < |Dedupe(ms)| ==> Dedupe(ms)[j].name != Dedupe(ms)[k].name
  {
    DedupeInOrder(ms);
  }

  /** The kept methods form a subsequence of the input. */
  lemma {:induction false} DedupeSubseq(ms: seq<Method>)
    ensures Py.IsSubseq(Dedupe(ms), ms)
    decreases |ms|
  {
    if ms != [] {
      var p := ms[..|ms| - 1];
      assert ms == p + [ms[|ms| - 1]];
      DedupeSubseq(p);
      Py.SubseqExtend(Dedupe(p), p, ms[|ms| - 1]);
    }
  }

  /** The `seen` / `unique_methods` loop: the de-duplicated list. */
  method DedupeLoop(methods: seq<Method>) returns (unique: seq<Method>)
    ensures unique == Dedupe(methods)
  {
    var seen: set<string> := {};
    unique := [];
    var k := 0;
    while k < |methods|
      invariant k <= |methods|
      invariant unique == Dedupe(methods[..k]) && seen == Names(unique)
    {
      var m := methods[k];
      assert methods[..k + 1][..k] == methods[..k];
      if m.name !in seen {
        NamesAppend(unique, m);
        seen := seen + {m.name};
        unique := unique + [m];
      }
      k := k + 1;
    }
    assert methods[..k] == methods;
  }

  /** The link loop of `scrape_methods_list`. */
  method ExtractLoop(links: seq<Link>, urlJoin: (string, string) -> string) returns (methods: seq<Method>)
    ensures methods == Extracted(links, urlJoin)
  {
    methods := [];
    var k := 0;
    while k < |links|
      invariant k <= |links|
      invariant methods == Extracted(links[..k], urlJoin)
    {
      assert links[..k + 1][..k] == links[..k];
      if IsMethodLink(links[k].href) {
        methods := methods + [EntryOf(links[k], urlJoin)];
      }
      k := k + 1;
    }
    assert links[..k] == links;
  }

  /** The method list `scrape_methods_list` returns for a listing page. */
  function MethodsList(page: Option<seq<Link>>, urlJoin: (string, string) -> string): seq<Method> {
    if page.None? then [] else Dedupe(Extracted(page.value, urlJoin))
  }

  /** `scrape_methods_list()`: nothing when the fetch failed, else the
      method links' entries with repeated names dropped. */
  method ScrapeMethodsList(page: Option<seq<Link>>, urlJoin: (string, string) -> string) returns (unique: seq<Method>)
    ensures page.None? ==> unique == []
    ensures page.Some? ==> unique == Dedupe(Extracted(page.value, urlJoin))
    ensures unique == MethodsList(page, urlJoin)
  {
    if page.None? {
      return [];
    }
    var methods := ExtractLoop(page.value, urlJoin);
    unique := DedupeLoop(methods);
  }

  // ------------------------------------------------------- a method's page

  /** One `<tr>`: its `<td>` texts and the row's whole text. */
  datatype Row = Row(cells: seq<string>, text: string)

  /** One `<h2>`: its `.string` (`None` when it has more than one child) and
      the rows of the first table after it, if there is one. */
  datatype Heading = Heading(str: Option<string>, nextTable: Option<seq<Row>>)

  /** What `scrape_method_details` reads from a method page: the meta
      description's content (`None`: no such element), the text of the first
      paragraph after the first `h1` (`None`: no `h1` or no paragraph after it), the
      `h2` headings in document order and the code blocks' texts. */
  datatype DetailPage = DetailPage(metaContent: Option<string>, afterH1: Option<string>,
                                   headings: seq<Heading>, codeBlocks: seq<string>)

  /** The details dictionary. */
  datatype Details = Details(name: string, url: string, description: string, parameters: seq<Parameter>,
                             exampleRequest: string, exampleResponse: string)

  /** A heading text the parameter section starts with. */
  predicate NamesParameters(x: string) {
    Py.Contains(x, "Arguments") || Py.Contains(x, "Parameters")
  }

  /** How the search for the parameter heading ends. */
  datatype HeadingSearch = NoHeading | FoundAt(index: nat) | RaisesTypeError

  /** The search as written, `lambda x: x and 'Arguments' in x or 'Parameters' in x`:
      the `or` binds loosest, so a heading whose `.string` is `None` reaches
      `'Parameters' in None`, which raises. */
  function FindHeadingAsWritten(hs: seq<Heading>): (r: HeadingSearch)
    ensures r.FoundAt? ==> r.index < |hs| && hs[r.index].str.Some? && NamesParameters(hs[r.index].str.value)
    ensures r.RaisesTypeError? <==>
      exists i :: 0 <= i < |hs| && hs[i].str.None? && forall j :: 0 <= j < i ==> hs[j].str.Some? && !NamesParameters(hs[j].str.value)
    decreases |hs|
  {
    if hs == [] then NoHeading
    else if hs[0].str.None? then RaisesTypeError
    else if NamesParameters(hs[0].str.value) then FoundAt(0)
    else
      match FindHeadingAsWritten(hs[1..])
      case FoundAt(i) => FoundAt(i + 1)
      case r =>
        assert forall i :: 1 <= i < |hs| ==> hs[i] == hs[1..][i - 1];
        r
  }

  /** The filter as evidently intended, `x and ('Arguments' in x or 'Parameters' in x)`:
      the first heading with a text naming the parameters, skipping those without one. */
  function FindHeading(hs: seq<Heading>): (r: HeadingSearch)
    ensures !r.RaisesTypeError?
    ensures r.FoundAt? ==> r.index < |hs| && hs[r.index].str.Some? && NamesParameters(hs[r.index].str.value)
    ensures r.FoundAt? ==> forall j :: 0 <= j < r.index ==> !(hs[j].str.Some? && NamesParameters(hs[j].str.value))
    ensures r.NoHeading? ==> forall j :: 0 <= j < |hs| ==> !(hs[j].str.Some? && NamesParameters(hs[j].str.value))
    decreases |hs|
  {
    if hs == [] then NoHeading
    else if hs[0].str.Some? && NamesParameters(hs[0].str.value) then FoundAt(0)
    else
      var r := FindHeading(hs[1..]);
      assert forall i :: 1 <= i < |hs| ==> hs[i] == hs[1..][i - 1];
      if r.FoundAt? then FoundAt(r.index + 1) else r
  }

  /** The two searches agree unless the as-written one raises. */
  lemma {:induction false} FindHeadingAgrees(hs: seq<Heading>)
    ensures FindHeadingAsWritten(hs).RaisesTypeError? || FindHeadingAsWritten(hs) == FindHeading(hs)
    decreases |hs|
  {
    if hs != [] && hs[0].str.Some? && !NamesParameters(hs[0].str.value) {
      FindHeadingAgrees(hs[1..]);
    }
  }

  /** A page whose first `h2` has nested markup (so its `.string` is `None`)
      ahead of an "Arguments" heading: as written the search raises, as
      intended it finds the second heading. */
  lemma HeadingFilterRaises(rows: seq<Row>)
    ensures var hs := [Heading(None, None), Heading(Some("Arguments"), Some(rows))];
      FindHeadingAsWritten(hs) == RaisesTypeError && FindHeading(hs) == FoundAt(1)
  {
    assert Py.OccursAt("Arguments", "Arguments", 0);
  }

  /** `'required' in row.get_text().lower()` */
  predicate MarksRequired(row: Row) {
    Py.Contains(Py.Lower(row.text), "required")
  }

  predicate HasTwoCells(row: Row) {
    |row.cells| >= 2
  }

  function ParameterOf(row: Row): (p: Parameter)
    requires HasTwoCells(row)
    ensures p.name == row.cells[0] && p.description == row.cells[1]
    ensures p.required <==> MarksRequired(row)
  {
    Parameter(row.cells[0], row.cells[1], MarksRequired(row))
  }

  /** `rows[1:]`: the rows after the header row. */
  function BodyRows(rows: seq<Row>): (r: seq<Row>)
    ensures rows == [] ==> r == []
    ensures rows != [] ==> r == rows[1..]
  {
    if rows == [] then [] else rows[1..]
  }

  /** The parameter rows: the rows after the header row that have at least
      two cells, in table order. */
  function ParameterRows(rows: seq<Row>): (r: seq<Row>)
    ensures |r| < |rows| || rows == []
    ensures forall i :: 0 <= i < |r| ==> HasTwoCells(r[i]) && r[i] in BodyRows(rows)
    ensures forall i :: 1 <= i < |rows| && HasTwoCells(rows[i]) ==> rows[i] in r
    ensures Py.IsSubseq(r, BodyRows(rows))
  {
    var body := BodyRows(rows);
    assert forall i :: 1 <= i < |rows| ==> rows[i] == body[i - 1];
    Py.Filter(body, HasTwoCells)
  }

  function Parameters(rows: seq<Row>): (ps: seq<Parameter>)
    ensures |ps| == |ParameterRows(rows)|
    ensures forall i :: 0 <= i < |ps| ==> ps[i] == ParameterOf(ParameterRows(rows)[i])
  {
    var pr := ParameterRows(rows);
    seq(|pr|, i requires 0 <= i < |pr| => ParameterOf(pr[i]))
  }

  /** The description: the paragraph after the first `h1` when there is one,
      else the meta description, else empty. */
  function Description(page: DetailPage): (d: string)
    ensures page.afterH1.Some? ==> d == page.afterH1.value
    ensures page.afterH1.None? && page.metaContent.Some? ==> d == page.metaContent.value
    ensures page.afterH1.None? && page.metaContent.None? ==> d == ""
  {
    if page.afterH1.Some? then page.afterH1.value
    else if page.metaContent.Some? then page.metaContent.value
    else ""
  }

  /** The first code block is the example request and the second the
      example response; a missing one is empty. */
  function Examples(codeBlocks: seq<string>): (r: (string, string))
    ensures r.0 == if |codeBlocks| > 0 then codeBlocks[0] else ""
    ensures r.1 == if |codeBlocks| > 1 then codeBlocks[1] else ""
  {
    (if |codeBlocks| > 0 then codeBlocks[0] else "", if |codeBlocks| > 1 then codeBlocks[1] else "")
  }

  /** The parameters under a heading search's result. */
  function ParametersAt(hs: seq<Heading>, search: HeadingSearch): seq<Parameter>
    requires search.FoundAt? ==> search.index < |hs|
  {
    if search.FoundAt? && hs[search.index].nextTable.Some? then Parameters(hs[search.index].nextTable.value) else []
  }

  /** `scrape_method_details(method_name)` with the parameter heading found as
      intended: `None` when the fetch failed. */
  function MethodDetails(name: string, page: Option<DetailPage>, urlJoin: (string, string) -> string): (r: Option<Details>)
    ensures r.Some? <==> page.Some?
    ensures r.Some? ==> r.value.name == name && r.value.url == urlJoin(BaseUrl, name)
    ensures r.Some? ==> r.value.description == Description(page.value)
    ensures r.Some? ==> (r.value.exampleRequest, r.value.exampleResponse) == Examples(page.value.codeBlocks)
    ensures r.Some? ==> r.value.parameters == ParametersAt(page.value.headings, FindHeading(page.value.headings))
    ensures r.Some? && FindHeading(page.value.headings).NoHeading? ==> r.value.parameters == []
  {
    match page
    case None => None
    case Some(p) =>
      var ex := Examples(p.codeBlocks);
      Some(Details(name, urlJoin(BaseUrl, name), Description(p),
                   ParametersAt(p.headings, FindHeading(p.headings)), ex.0, ex.1))
  }

  /** How the details call ends as written. */
  datatype DetailsOutcome = NotFetched | DetailsRaise | Fetched(details: Details)

  /** `scrape_method_details(method_name)` as written: it raises whenever the
      heading search does, and otherwise agrees with `MethodDetails`. */
  function MethodDetailsAsWritten(name: string, page: Option<DetailPage>, urlJoin: (string, string) -> string): (r: DetailsOutcome)
    ensures r.NotFetched? <==> page.None?
    ensures r.DetailsRaise? <==> page.Some? && FindHeadingAsWritten(page.value.headings).RaisesTypeError?
    ensures r.Fetched? ==> Some(r.details) == MethodDetails(name, page, urlJoin)
  {
    match page
    case None => NotFetched
    case Some(p) =>
      var search := FindHeadingAsWritten(p.headings);
      if search.RaisesTypeError? then DetailsRaise
      else
        FindHeadingAgrees(p.headings);
        var ex := Examples(p.codeBlocks);
        Fetched(Details(name, urlJoin(BaseUrl, name), Description(p), ParametersAt(p.headings, search), ex.0, ex.1))
  }

  // ------------------------------------------------------ merging and grouping

  /** `method.update(details)`: name, url and description are overwritten,
      the parameters and examples added; the category stays. */
  function Merged(m: Method, d: Details): (r: Method)
    ensures r.category == m.category && r.name == d.name && r.url == d.url && r.description == d.description
    ensures r.extra == Some(Extra(d.parameters, d.exampleRequest, d.exampleResponse))
  {
    Method(d.name, m.category, d.url, d.description, Some(Extra(d.parameters, d.exampleRequest, d.exampleResponse)))
  }

  /** A listed method after its details fetch: merged when the fetch succeeded, else as it was. */
  function WithDetails(m: Method, pages: string -> Option<DetailPage>, urlJoin: (string, string) -> string): (r: Method)
    ensures r.name == m.name && r.category == m.category
    ensures pages(m.name).None? ==> r == m
    ensures pages(m.name).Some? ==> r == Merged(m, MethodDetails(m.name, pages(m.name), urlJoin).value)
  {
    match MethodDetails(m.name, pages(m.name), urlJoin)
    case None => m
    case Some(d) => Merged(m, d)
  }

  /** `scrape_all_methods(include_details)`: the method list, each entry
      updated in place with its details when asked for and fetched; length,
      order, names and categories do not change. */
  method ScrapeAllMethods(page: Option<seq<Link>>, pages: string -> Option<DetailPage>,
                          urlJoin: (string, string) -> string, includeDetails: bool)
    returns (methods: seq<Method>)
    ensures var listed := MethodsList(page, urlJoin);
      && |methods| == |listed|
      && (forall i :: 0 <= i < |methods| ==> methods[i].name == listed[i].name && methods[i].category == listed[i].category)
      && (!includeDetails ==> methods == listed)
      && (includeDetails ==> forall i :: 0 <= i < |methods| ==> methods[i] == WithDetails(listed[i], pages, urlJoin))
  {
    methods := ScrapeMethodsList(page, urlJoin);
    if includeDetails {
      methods := MergeDetails(methods, pages, urlJoin);
    }
  }

  /** The details loop of `scrape_all_methods`: each entry in turn is merged
      with its details when they were fetched. */
  method MergeDetails(listed: seq<Method>, pages: string -> Option<DetailPage>, urlJoin: (string, string) -> string)
    returns (methods: seq<Method>)
    ensures |methods| == |listed|
    ensures forall i :: 0 <= i < |methods| ==> methods[i] == WithDetails(listed[i], pages, urlJoin)
  {
    methods := listed;
    var i := 0;
    while i < |methods|
      invariant i <= |methods| == |listed|
      invariant forall j :: 0 <= j < i ==> methods[j] == WithDetails(listed[j], pages, urlJoin)
      invariant forall j :: i <= j < |methods| ==> methods[j] == listed[j]
    {
      var details := MethodDetails(methods[i].name, pages(methods[i].name), urlJoin);
      if details.Some? {
        methods := methods[i := Merged(methods[i], details.value)];
      }
      i := i + 1;
    }
  }

  /** `by_category` with its keys in insertion order. */
  datatype Groups = Groups(order: seq<string>, groups: map<string, seq<Method>>)

  /** The grouping of `get_methods_by_category`, one method at a time. */
  function Grouped(ms: seq<Method>): Groups
    decreases |ms|
  {
    if ms == [] then Groups([], map[])
    else
      var g := Grouped(ms[..|ms| - 1]);
      var m := ms[|ms| - 1];
      if m.category in g.groups then Groups(g.order, g.groups[m.category := g.groups[m.category] + [m]])
      else Groups(g.order + [m.category], g.groups[m.category := [m]])
  }

  /** `method.get('category') == c`, as a filter. */
  function HasCategory(c: string): Method -> bool {
    (m: Method) => m.category == c
  }

  /** The total size of the groups listed in `order`. */
  function Total(groups: map<string, seq<Method>>, order: seq<string>): nat
    requires forall c :: c in order ==> c in groups
  {
    if order == [] then 0 else |groups[order[0]]| + Total(groups, order[1..])
  }

  /** Growing one listed group by one grows the total by one. */
  lemma {:induction false} TotalGrow(groups: map<string, seq<Method>>, order: seq<string>, c: string, m: Method)
    requires forall k :: k in order ==> k in groups
    requires c in groups && Py.Distinct(order)
    ensures Total(groups[c := groups[c] + [m]], order) == Total(groups, order) + (if c in order then 1 else 0)
    decreases |order|
  {
    if order != [] {
      assert Py.Distinct(order[1..]) by {
        forall i, j | 0 <= i < j < |order[1..]| ensures order[1..][i] != order[1..][j] {
          assert order[1..][i] == order[i + 1] && order[1..][j] == order[j + 1];
        }
      }
      assert c in order <==> c == order[0] || c in order[1..];
      assert c == order[0] ==> c !in order[1..] by {
        forall k | 0 <= k < |order[1..]| ensures order[1..][k] != order[0] { assert order[1..][k] == order[k + 1]; }
      }
      TotalGrow(groups, order[1..], c, m);
    }
  }

  /** Adding a new group at the end adds its size to the total. */
  lemma {:induction false} TotalAdd(groups: map<string, seq<Method>>, order: seq<string>, c: string, v: seq<Method>)
    requires forall k :: k in order ==> k in groups
    requires c !in order
    ensures Total(groups[c := v], order + [c]) == Total(groups, order) + |v|
    decreases |order|
  {
    if order == [] {
      assert order + [c] == [c];
      assert ([c])[1..] == [];
    } else {
      assert (order + [c])[1..] == order[1..] + [c];
      TotalAdd(groups, order[1..], c, v);
    }
  }

  /** The keys are the categories in order of first appearance, each once:
      `order` lists exactly the keys of the dictionary, without repeats, and
      every method's category is a key with a non-empty group. */
  lemma {:induction false} GroupedKeys(ms: seq<Method>)
    ensures var g := Grouped(ms);
      && Py.Distinct(g.order)
      && (forall c :: c in g.order <==> c in g.groups)
      && (forall c :: c in g.groups ==> g.groups[c] != [])
      && (forall i :: 0 <= i < |ms| ==> ms[i].category in g.groups)
    decreases |ms|
  {
    if ms != [] {
      var p := ms[..|ms| - 1];
      var m := ms[|ms| - 1];
      GroupedKeys(p);
      var gp := Grouped(p);
      assert forall i :: 0 <= i < |p| ==> p[i] == ms[i];
      if m.category !in gp.groups {
        var o := gp.order + [m.category];
        forall i, j | 0 <= i < j < |o| ensures o[i] != o[j] {
          assert o[i] == gp.order[i];
          if j < |gp.order| { assert o[j] == gp.order[j]; }
        }
      }
    }
  }

  /** Each method lands in the group of its category and no other: a
      category's group is exactly that category's methods in input order, and
      a category with no group has no methods. */
  lemma {:induction false} GroupedIsFilter(ms: seq<Method>, c: string)
    ensures c in Grouped(ms).groups ==> Grouped(ms).groups[c] == Py.Filter(ms, HasCategory(c))
    ensures c !in Grouped(ms).groups ==> Py.Filter(ms, HasCategory(c)) == []
    decreases |ms|
  {
    if ms != [] {
      var p := ms[..|ms| - 1];
      var m := ms[|ms| - 1];
      assert ms == p + [m];
      GroupedIsFilter(p, c);
      var g, g' := Grouped(p), Grouped(ms);
      Py.FilterAppend(p, [m], HasCategory(c));
      assert [m][1..] == [];
      assert Py.Filter([m], HasCategory(c)) == if m.category == c then [m] else [];
      if m.category == c {
        assert c in g'.groups && g'.groups[c] == (if c in g.groups then g.groups[c] else []) + [m];
      } else {
        assert (c in g'.groups) == (c in g.groups);
        assert c in g.groups ==> g'.groups[c] == g.groups[c];
      }
    }
  }

  /** The group sizes add up to the number of methods. */
  lemma {:induction false} GroupedTotal(ms: seq<Method>)
    ensures forall c :: c in Grouped(ms).order ==> c in Grouped(ms).groups
    ensures Total(Grouped(ms).groups, Grouped(ms).order) == |ms|
    decreases |ms|
  {
    GroupedKeys(ms);
    if ms != [] {
      var p := ms[..|ms| - 1];
      var m := ms[|ms| - 1];
      GroupedTotal(p);
      GroupedKeys(p);
      var gp := Grouped(p);
      if m.category in gp.groups {
        TotalGrow(gp.groups, gp.order, m.category, m);
      } else {
        TotalAdd(gp.groups, gp.order, m.category, [m]);
      }
    }
  }

  /** `get_methods_by_category(methods)`: fills `by_category` one method at a time. */
  method GetMethodsByCategory(methods: seq<Method>) returns (order: seq<string>, byCategory: map<string, seq<Method>>)
    ensures Groups(order, byCategory) == Grouped(methods)
  {
    order, byCategory := [], map[];
    var k := 0;
    while k < |methods|
      invariant k <= |methods|
      invariant Groups(order, byCategory) == Grouped(methods[..k])
    {
      var m := methods[k];
      assert methods[..k + 1][..k] == methods[..k];
      if m.category !in byCategory {
        order, byCategory := order + [m.category], byCategory[m.category := []];
        assert byCategory[m.category] + [m] == [m];
      }
      byCategory := byCategory[m.category := byCategory[m.category] + [m]];
      k := k + 1;
    }
    assert methods[..k] == methods;
  }
}
