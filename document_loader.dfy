/** The legal-document flattener: `DocumentLoader` in src/process/process_data.py.

    `load_document` walks one law (root -> chapter -> section -> article) and
    emits groups `{root, chapter, section, articles}`; `postprocessing_documents`
    turns every group into one flat record; `runs` concatenates the groups of
    every file and post-processes them once. Groups and records are JSON
    objects, as the source builds them as dicts. */
module DocumentLoader {
  import opened JsonValue

  // ---------------------------------------------------------------------------
  // The dicts load_document builds
  // ---------------------------------------------------------------------------

  /** `root_info`: the law's own title, summary and dates. */
  function RootInfo(data: map<string, Json>): Json
  {
    Obj(map[
      "level" := Str("root"),
      "title" := GetOr(data, "title", EmptyText),
      "summary" := GetOr(data, "summary", EmptyText),
      "issue_date" := GetOr(data, "issue_date", EmptyText),
      "effective_date" := GetOr(data, "effective_date", EmptyText)])
  }

  /** `chapter_info` / `section_info`: a node's `text` becomes the title. */
  function LevelInfo(level: string, node: map<string, Json>): Json
  {
    Obj(map[
      "level" := Str(level),
      "title" := GetOr(node, "text", EmptyText),
      "summary" := GetOr(node, "summary", EmptyText)])
  }

  /** `empty_chapter()` / `empty_section()`: a missing level. */
  function EmptyInfo(level: string): Json
  {
    Obj(map["level" := Str(level), "title" := EmptyText, "summary" := EmptyText])
  }

  /** The dict recorded for one article node. */
  function ArticleInfo(node: map<string, Json>): Json
  {
    Obj(map[
      "level" := Str("article"),
      "id" := GetOr(node, "_id", EmptyText),
      "raw_content" := GetOr(node, "text", EmptyText),
      "summary" := GetOr(node, "summary", EmptyText)])
  }

  /** One emitted group. */
  function Group(root: Json, chapter: Json, section: Json, articles: seq<Json>): Json
  {
    Obj(map["root" := root, "chapter" := chapter, "section" := section, "articles" := Arr(articles)])
  }

  /** `node.get("level")`, which is `None` when the key is absent. */
  function Level(node: map<string, Json>): Json
  {
    GetOr(node, "level", Null)
  }

  /** Appending what one step produced to what the rest produces; an exception
      anywhere aborts the whole traversal. */
  function Then(a: Outcome<seq<Json>>, b: Outcome<seq<Json>>): Outcome<seq<Json>>
  {
    if a.Ok? && b.Ok? then Ok(a.value + b.value) else Raised
  }

  // ---------------------------------------------------------------------------
  // load_document as functions: one per loop, one per loop body
  // ---------------------------------------------------------------------------

  /** What one child of a section adds to the section's `articles` list. */
  function ArticleStep(node: Json): Outcome<seq<Json>>
  {
    if !node.Obj? then Raised
    else if Level(node.fields) == Str("article") then Ok([ArticleInfo(node.fields)])
    else Ok([])
  }

  /** The `articles` list the innermost loop builds from a section's children. */
  function SectionArticles(items: seq<Json>): Outcome<seq<Json>>
  {
    if items == [] then Ok([]) else Then(ArticleStep(items[0]), SectionArticles(items[1..]))
  }

  /** What one child of a chapter appends to `documents`. */
  function ChapterChildGroups(root: Json, chapter: Json, node: Json): Outcome<seq<Json>>
  {
    if !node.Obj? then Raised
    else if Level(node.fields) == Str("section") then
      var section := LevelInfo("section", node.fields);
      var children :- Elements(GetOr(node.fields, "children", Arr([])));
      var articles :- SectionArticles(children);
      if articles != [] then Ok([Group(root, chapter, section, articles)]) else Ok([])
    else if Level(node.fields) == Str("article") then
      Ok([Group(root, chapter, EmptyInfo("section"), [ArticleInfo(node.fields)])])
    else
      Ok([])
  }

  /** What the loop over a chapter's children appends to `documents`. */
  function ChapterGroups(root: Json, chapter: Json, items: seq<Json>): Outcome<seq<Json>>
  {
    if items == [] then Ok([])
    else Then(ChapterChildGroups(root, chapter, items[0]), ChapterGroups(root, chapter, items[1..]))
  }

  /** What one child of the root appends to `documents`. */
  function RootChildGroups(root: Json, node: Json): Outcome<seq<Json>>
  {
    if !node.Obj? then Raised
    else if Level(node.fields) == Str("chapter") then
      var chapter := LevelInfo("chapter", node.fields);
      if "children" in node.fields then
        var children :- Elements(node.fields["children"]);
        ChapterGroups(root, chapter, children)
      else
        Ok([])
    else if Level(node.fields) == Str("article") then
      Ok([Group(root, EmptyInfo("chapter"), EmptyInfo("section"), [ArticleInfo(node.fields)])])
    else
      Ok([])
  }

  /** What the loop over the root's children appends to `documents`. */
  function RootGroups(root: Json, items: seq<Json>): Outcome<seq<Json>>
  {
    if items == [] then Ok([]) else Then(RootChildGroups(root, items[0]), RootGroups(root, items[1..]))
  }

  /** The body of load_document's `try`: Raised when it would throw. */
  function Traverse(data: map<string, Json>): Outcome<seq<Json>>
  {
    var children :- Elements(GetOr(data, "children", Arr([])));
    RootGroups(RootInfo(data), children)
  }

  /** load_document: raises when `data` is not a dict (`root_info` is built before
      the `try`); a traversal that throws inside the `try` yields no groups. */
  function DocumentGroups(data: Json): Outcome<seq<Json>>
  {
    if !data.Obj? then Raised
    else
      var groups := Traverse(data.fields);
      Ok(if groups.Ok? then groups.value else [])
  }

  // ---------------------------------------------------------------------------
  // load_document as the source runs it: three nested loops appending to a list
  // ---------------------------------------------------------------------------

  lemma ThenAssocOutcome(a: Outcome<seq<Json>>, b: Outcome<seq<Json>>, c: Outcome<seq<Json>>)
    ensures Then(a, Then(b, c)) == Then(Then(a, b), c)
  {
    if a.Ok? && b.Ok? && c.Ok? {
      assert a.value + (b.value + c.value) == (a.value + b.value) + c.value;
    }
  }

  lemma ThenNil(b: Outcome<seq<Json>>)
    ensures Then(Ok([]), b) == b
  {
    if b.Ok? {
      assert [] + b.value == b.value;
    }
  }

  /** The innermost loop of load_document: a section's article children, in order. */
  method CollectArticles(items: seq<Json>) returns (r: Outcome<seq<Json>>)
    ensures r == SectionArticles(items)
  {
    var articles: seq<Json> := [];
    var k := 0;
    assert items[0..] == items;
    ThenNil(SectionArticles(items));
    while k < |items|
      invariant k <= |items|
      invariant SectionArticles(items) == Then(Ok(articles), SectionArticles(items[k..]))
    {
      var article := items[k];
      assert items[k..][1..] == items[k + 1..];
      assert SectionArticles(items[k..]) == Then(ArticleStep(article), SectionArticles(items[k + 1..]));
      ThenAssocOutcome(Ok(articles), ArticleStep(article), SectionArticles(items[k + 1..]));
      if !article.Obj? {
        return Raised;
      }
      if Level(article.fields) == Str("article") {
        articles := articles + [ArticleInfo(article.fields)];
      } else {
        assert articles + [] == articles;
      }
      k := k + 1;
    }
    assert items[k..] == [];
    assert articles + [] == articles;
    return Ok(articles);
  }

  /** The middle loop of load_document: appends to `documents` the groups of one
      chapter's children. */
  method AppendChapterGroups(documents: seq<Json>, rootInfo: Json, chapterInfo: Json, nodes: seq<Json>)
    returns (r: Outcome<seq<Json>>)
    ensures r == Then(Ok(documents), ChapterGroups(rootInfo, chapterInfo, nodes))
  {
    var docs := documents;
    var j := 0;
    assert nodes[0..] == nodes;
    while j < |nodes|
      invariant j <= |nodes|
      invariant Then(Ok(documents), ChapterGroups(rootInfo, chapterInfo, nodes))
        == Then(Ok(docs), ChapterGroups(rootInfo, chapterInfo, nodes[j..]))
    {
      var section := nodes[j];
      assert nodes[j..][1..] == nodes[j + 1..];
      assert ChapterGroups(rootInfo, chapterInfo, nodes[j..])
        == Then(ChapterChildGroups(rootInfo, chapterInfo, section), ChapterGroups(rootInfo, chapterInfo, nodes[j + 1..]));
      ThenAssocOutcome(Ok(docs), ChapterChildGroups(rootInfo, chapterInfo, section), ChapterGroups(rootInfo, chapterInfo, nodes[j + 1..]));
      if !section.Obj? {
        return Raised;
      }
      if Level(section.fields) == Str("section") {
        var sectionInfo := LevelInfo("section", section.fields);
        var children := Elements(GetOr(section.fields, "children", Arr([])));
        if children.Raised? {
          return Raised;
        }
        var articles := CollectArticles(children.value);
        if articles.Raised? {
          return Raised;
        }
        if articles.value != [] {
          docs := docs + [Group(rootInfo, chapterInfo, sectionInfo, articles.value)];
        } else {
          assert docs + [] == docs;
        }
      } else if Level(section.fields) == Str("article") {
        docs := docs + [Group(rootInfo, chapterInfo, EmptyInfo("section"), [ArticleInfo(section.fields)])];
      } else {
        assert docs + [] == docs;
      }
      j := j + 1;
    }
    assert nodes[j..] == [];
    assert docs + [] == docs;
    return Ok(docs);
  }

  /** load_document: the loop over the root's children. */
  method LoadDocument(data: Json) returns (r: Outcome<seq<Json>>)
    ensures r == DocumentGroups(data)
  {
    if !data.Obj? {
      return Raised;
    }
    var rootInfo := RootInfo(data.fields);
    var children := Elements(GetOr(data.fields, "children", Arr([])));
    if children.Raised? {
      return Ok([]);
    }
    var nodes := children.value;
    var documents: seq<Json> := [];
    var i := 0;
    assert nodes[0..] == nodes;
    ThenNil(RootGroups(rootInfo, nodes));
    while i < |nodes|
      invariant i <= |nodes|
      invariant RootGroups(rootInfo, nodes) == Then(Ok(documents), RootGroups(rootInfo, nodes[i..]))
    {
      var child := nodes[i];
      assert nodes[i..][1..] == nodes[i + 1..];
      assert RootGroups(rootInfo, nodes[i..]) == Then(RootChildGroups(rootInfo, child), RootGroups(rootInfo, nodes[i + 1..]));
      ThenAssocOutcome(Ok(documents), RootChildGroups(rootInfo, child), RootGroups(rootInfo, nodes[i + 1..]));
      if !child.Obj? {
        return Ok([]);
      }
      if Level(child.fields) == Str("chapter") {
        var chapterInfo := LevelInfo("chapter", child.fields);
        if "children" in child.fields {
          var sections := Elements(child.fields["children"]);
          if sections.Raised? {
            return Ok([]);
          }
          var extended := AppendChapterGroups(documents, rootInfo, chapterInfo, sections.value);
          if extended.Raised? {
            return Ok([]);
          }
          documents := extended.value;
        } else {
          assert documents + [] == documents;
        }
      } else if Level(child.fields) == Str("article") {
        documents := documents + [Group(rootInfo, EmptyInfo("chapter"), EmptyInfo("section"), [ArticleInfo(child.fields)])];
      } else {
        assert documents + [] == documents;
      }
      i := i + 1;
    }
    assert nodes[i..] == [];
    assert documents + [] == documents;
    return Ok(documents);
  }

  // ---------------------------------------------------------------------------
  // postprocessing_documents
  // ---------------------------------------------------------------------------

  /** `v[0]` on a JSON value: a list's first item, a string's first character;
      an empty list or string, a dict (JSON keys are strings, so `0` is missing),
      null, a boolean or a number raise. */
  function FirstItem(v: Json): Outcome<Json>
  {
    match v
    case Arr(items) => if items != [] then Ok(items[0]) else Raised
    case Str(s) => if s != "" then Ok(Str([s[0]])) else Raised
    case _ => Raised
  }

  /** `doc.get(part, {}).get(key, "")`. */
  function ContextField(doc: map<string, Json>, part: string, key: string): Outcome<Json>
  {
    Get(GetOr(doc, part, Obj(map[])), key, EmptyText)
  }

  /** Reading a context part raises iff the part is present but not a dict, and
      otherwise gives the key's value, `""` when the part or the key is missing. */
  lemma ContextFieldValue(doc: map<string, Json>, part: string, key: string)
    ensures ContextField(doc, part, key).Ok? <==> ContextReadable(doc, part)
    ensures ContextField(doc, part, key).Ok? ==>
      ContextField(doc, part, key).value == GetOr(Context(doc, part), key, EmptyText)
  {
  }

  /** `doc.get("articles", [])[0].get(key, "")`. */
  function FirstArticleField(doc: map<string, Json>, key: string): Outcome<Json>
  {
    var first :- FirstItem(GetOr(doc, "articles", Arr([])));
    Get(first, key, EmptyText)
  }

  /** The unguarded `articles[0].get(key, "")` succeeds iff `articles` is a
      non-empty list whose first item is a dict, and then reads that item. */
  lemma FirstArticleFieldValue(doc: map<string, Json>, key: string)
    ensures FirstArticleField(doc, key).Ok? <==> ArticlesReadable(doc)
    ensures FirstArticleField(doc, key).Ok? ==>
      FirstArticleField(doc, key).value == GetOr(doc["articles"].items[0].fields, key, EmptyText)
  {
  }

  /** `doc.get("articles", [])[0].get(key, "") if doc.get("articles") else ""`. */
  function GuardedArticleField(doc: map<string, Json>, key: string): Outcome<Json>
  {
    if Truthy(GetOr(doc, "articles", Null)) then FirstArticleField(doc, key) else Ok(EmptyText)
  }

  /** On a readable `articles` list the guard passes, so the guarded form reads
      the first article exactly as the unguarded one does. */
  lemma GuardedArticleFieldValue(doc: map<string, Json>, key: string)
    requires ArticlesReadable(doc)
    ensures GuardedArticleField(doc, key) == FirstArticleField(doc, key)
    ensures GuardedArticleField(doc, key).Ok?
    ensures GuardedArticleField(doc, key).value == GetOr(doc["articles"].items[0].fields, key, EmptyText)
  {
    FirstArticleFieldValue(doc, key);
  }

  /** The keys of a flat record. */
  const RecordKeys: set<string> := {
    "root_title", "root_summary", "root_issue_date", "root_effective_date",
    "chapter_title", "chapter_summary", "section_title", "section_summary",
    "raw_articles", "article_summary", "id"}

  /** A context part (`root`, `chapter`, `section`) the post-processing can read:
      absent, or a dict. */
  predicate ContextReadable(doc: map<string, Json>, part: string)
  {
    part !in doc || doc[part].Obj?
  }

  /** `articles` is a non-empty list whose first item is a dict. */
  predicate ArticlesReadable(doc: map<string, Json>)
  {
    && "articles" in doc
    && doc["articles"].Arr?
    && doc["articles"].items != []
    && doc["articles"].items[0].Obj?
  }

  /** A group `postprocessing_documents` turns into a record without raising. */
  predicate Readable(doc: Json)
  {
    && doc.Obj?
    && ContextReadable(doc.fields, "root")
    && ContextReadable(doc.fields, "chapter")
    && ContextReadable(doc.fields, "section")
    && ArticlesReadable(doc.fields)
  }

  /** The dict a context part names, `{}` when it is absent. */
  function Context(doc: map<string, Json>, part: string): map<string, Json>
  {
    if part in doc && doc[part].Obj? then doc[part].fields else map[]
  }

  /** The first article of a readable group. */
  function FirstArticle(doc: Json): map<string, Json>
    requires Readable(doc)
  {
    doc.fields["articles"].items[0].fields
  }

  /** The dict literal of one flat record, from its eleven values. */
  function RecordFields(
    rootTitle: Json, rootSummary: Json, rootIssueDate: Json, rootEffectiveDate: Json,
    chapterTitle: Json, chapterSummary: Json, sectionTitle: Json, sectionSummary: Json,
    rawArticles: Json, articleSummary: Json, id: Json): map<string, Json>
  {
    map[
      "root_title" := rootTitle,
      "root_summary" := rootSummary,
      "root_issue_date" := rootIssueDate,
      "root_effective_date" := rootEffectiveDate,
      "chapter_title" := chapterTitle,
      "chapter_summary" := chapterSummary,
      "section_title" := sectionTitle,
      "section_summary" := sectionSummary,
      "raw_articles" := rawArticles,
      "article_summary" := articleSummary,
      "id" := id]
  }

  lemma RecordFieldsKeys(
    rootTitle: Json, rootSummary: Json, rootIssueDate: Json, rootEffectiveDate: Json,
    chapterTitle: Json, chapterSummary: Json, sectionTitle: Json, sectionSummary: Json,
    rawArticles: Json, articleSummary: Json, id: Json)
    ensures RecordFields(
      rootTitle, rootSummary, rootIssueDate, rootEffectiveDate, chapterTitle, chapterSummary,
      sectionTitle, sectionSummary, rawArticles, articleSummary, id).Keys == RecordKeys
  {
    var m := RecordFields(
      rootTitle, rootSummary, rootIssueDate, rootEffectiveDate, chapterTitle, chapterSummary,
      sectionTitle, sectionSummary, rawArticles, articleSummary, id);
    assert RecordKeys <= m.Keys;
    assert m.Keys <= RecordKeys;
  }

  /** One iteration of `postprocessing_documents`: the flat record of one group. */
  function FlatRecord(doc: Json): Outcome<Json>
  {
    if !doc.Obj? then Raised
    else
      var d := doc.fields;
      // The dict literal raises when any of its value expressions raises.
      var rootTitle := ContextField(d, "root", "title");
      var rootSummary := ContextField(d, "root", "summary");
      var rootIssueDate := ContextField(d, "root", "issue_date");
      var rootEffectiveDate := ContextField(d, "root", "effective_date");
      var chapterTitle := ContextField(d, "chapter", "title");
      var chapterSummary := ContextField(d, "chapter", "summary");
      var sectionTitle := ContextField(d, "section", "title");
      var sectionSummary := ContextField(d, "section", "summary");
      var rawArticles := GuardedArticleField(d, "raw_content");
      var articleSummary := FirstArticleField(d, "summary");
      var id := GuardedArticleField(d, "id");
      if && rootTitle.Ok? && rootSummary.Ok? && rootIssueDate.Ok? && rootEffectiveDate.Ok?
         && chapterTitle.Ok? && chapterSummary.Ok? && sectionTitle.Ok? && sectionSummary.Ok?
         && rawArticles.Ok? && articleSummary.Ok? && id.Ok?
      then
        Ok(Obj(RecordFields(
          rootTitle.value, rootSummary.value, rootIssueDate.value, rootEffectiveDate.value,
          chapterTitle.value, chapterSummary.value, sectionTitle.value, sectionSummary.value,
          rawArticles.value, articleSummary.value, id.value)))
      else
        Raised
  }

  /** Post-processing a group raises exactly when the group is not readable. */
  lemma FlatRecordOk(doc: Json)
    ensures FlatRecord(doc).Ok? <==> Readable(doc)
  {
    if doc.Obj? {
      var d := doc.fields;
      ContextFieldsValues(d, "root");
      ContextFieldsValues(d, "chapter");
      ContextFieldsValues(d, "section");
      FirstArticleFieldValue(d, "summary");
      if ArticlesReadable(d) {
        GuardedArticleFieldValue(d, "raw_content");
        GuardedArticleFieldValue(d, "id");
      }
    }
  }

  lemma ContextFieldsValues(d: map<string, Json>, part: string)
    ensures forall key :: ContextField(d, part, key).Ok? <==> ContextReadable(d, part)
    ensures forall key :: ContextField(d, part, key).Ok? ==>
      ContextField(d, part, key).value == GetOr(Context(d, part), key, EmptyText)
  {
    forall key
      ensures ContextField(d, part, key).Ok? <==> ContextReadable(d, part)
      ensures ContextField(d, part, key).Ok? ==> ContextField(d, part, key).value == GetOr(Context(d, part), key, EmptyText)
    {
      ContextFieldValue(d, part, key);
    }
  }

  /** A record has exactly the eleven keys the uploader reads. */
  lemma FlatRecordKeys(doc: Json)
    requires Readable(doc)
    ensures FlatRecord(doc).Ok? && FlatRecord(doc).value.Obj?
    ensures FlatRecord(doc).value.fields.Keys == RecordKeys
  {
    FlatRecordOk(doc);
    var d := doc.fields;
    RecordFieldsKeys(
      ContextField(d, "root", "title").value, ContextField(d, "root", "summary").value,
      ContextField(d, "root", "issue_date").value, ContextField(d, "root", "effective_date").value,
      ContextField(d, "chapter", "title").value, ContextField(d, "chapter", "summary").value,
      ContextField(d, "section", "title").value, ContextField(d, "section", "summary").value,
      GuardedArticleField(d, "raw_content").value, FirstArticleField(d, "summary").value,
      GuardedArticleField(d, "id").value);
  }

  /** A record's `root_*` fields come from the group's `root` dict, `""` where
      the dict or the key is missing. */
  lemma FlatRecordRoot(doc: Json)
    requires Readable(doc)
    ensures FlatRecord(doc).Ok?
    ensures
      var rec := FlatRecord(doc).value.fields;
      && rec["root_title"] == GetOr(Context(doc.fields, "root"), "title", EmptyText)
      && rec["root_summary"] == GetOr(Context(doc.fields, "root"), "summary", EmptyText)
      && rec["root_issue_date"] == GetOr(Context(doc.fields, "root"), "issue_date", EmptyText)
      && rec["root_effective_date"] == GetOr(Context(doc.fields, "root"), "effective_date", EmptyText)
  {
    FlatRecordOk(doc);
    ContextFieldsValues(doc.fields, "root");
  }

  /** A record's chapter and section fields come from the group's `chapter` and
      `section` dicts, and are `""` when the group has no such dict. */
  lemma FlatRecordLevels(doc: Json)
    requires Readable(doc)
    ensures FlatRecord(doc).Ok?
    ensures
      var rec := FlatRecord(doc).value.fields;
      && rec["chapter_title"] == GetOr(Context(doc.fields, "chapter"), "title", EmptyText)
      && rec["chapter_summary"] == GetOr(Context(doc.fields, "chapter"), "summary", EmptyText)
      && rec["section_title"] == GetOr(Context(doc.fields, "section"), "title", EmptyText)
      && rec["section_summary"] == GetOr(Context(doc.fields, "section"), "summary", EmptyText)
    ensures "chapter" !in doc.fields ==>
      FlatRecord(doc).value.fields["chapter_title"] == EmptyText && FlatRecord(doc).value.fields["chapter_summary"] == EmptyText
    ensures "section" !in doc.fields ==>
      FlatRecord(doc).value.fields["section_title"] == EmptyText && FlatRecord(doc).value.fields["section_summary"] == EmptyText
  {
    FlatRecordOk(doc);
    ContextFieldsValues(doc.fields, "chapter");
    ContextFieldsValues(doc.fields, "section");
  }

  /** `raw_articles`, `article_summary` and `id` come from the group's first
      article only. */
  lemma FlatRecordArticle(doc: Json)
    requires Readable(doc)
    ensures FlatRecord(doc).Ok?
    ensures
      var rec := FlatRecord(doc).value.fields;
      && rec["raw_articles"] == GetOr(FirstArticle(doc), "raw_content", EmptyText)
      && rec["article_summary"] == GetOr(FirstArticle(doc), "summary", EmptyText)
      && rec["id"] == GetOr(FirstArticle(doc), "id", EmptyText)
  {
    FlatRecordOk(doc);
    FirstArticleFieldValue(doc.fields, "summary");
    GuardedArticleFieldValue(doc.fields, "raw_content");
    GuardedArticleFieldValue(doc.fields, "id");
  }

  /** The body of postprocessing_documents' `try`: one record per group, Raised
      as soon as one group cannot be read. */
  function PostProcessed(docs: seq<Json>): Outcome<seq<Json>>
  {
    if docs == [] then Ok([])
    else
      var record :- FlatRecord(docs[0]);
      var rest :- PostProcessed(docs[1..]);
      Ok([record] + rest)
  }

  lemma PostProcessedStep(docs: seq<Json>, i: nat)
    requires i < |docs| && FlatRecord(docs[i]).Ok?
    ensures PostProcessed(docs[i..]) == Then(Ok([FlatRecord(docs[i]).value]), PostProcessed(docs[i + 1..]))
  {
    assert docs[i..][1..] == docs[i + 1..];
  }

  /** postprocessing_documents: an exception yields no records at all. */
  method PostProcessing(documents: seq<Json>) returns (processed: seq<Json>)
    ensures processed == if PostProcessed(documents).Ok? then PostProcessed(documents).value else []
  {
    var records: seq<Json> := [];
    var i := 0;
    assert documents[0..] == documents;
    ThenNil(PostProcessed(documents));
    while i < |documents|
      invariant i <= |documents|
      invariant PostProcessed(documents) == Then(Ok(records), PostProcessed(documents[i..]))
    {
      var doc := documents[i];
      var record := FlatRecord(doc);
      if record.Raised? {
        return [];
      }
      PostProcessedStep(documents, i);
      ThenAssocOutcome(Ok(records), Ok([record.value]), PostProcessed(documents[i + 1..]));
      records := records + [record.value];
      i := i + 1;
    }
    assert documents[i..] == [];
    assert records + [] == records;
    return records;
  }

  // ---------------------------------------------------------------------------
  // runs: the groups of every parsed file, post-processed once
  // ---------------------------------------------------------------------------

  /** What one `.json` file adds to `documents`. `file` is what
      `load_data_from_json` gives: the parsed value, `{}` when the file is missing
      or is not valid JSON, or Raised for any other read error (a permission or
      decoding error), which aborts the run. A falsy value is skipped. */
  function FileStep(file: Outcome<Json>): Outcome<seq<Json>>
  {
    match file
    case Raised => Raised
    case Ok(data) => if Truthy(data) then DocumentGroups(data) else Ok([])
  }

  /** The groups `runs` collects from the `.json` files in walk order; a
      load_document that raises aborts the run. */
  function FileGroups(files: seq<Outcome<Json>>): Outcome<seq<Json>>
  {
    if files == [] then Ok([]) else Then(FileStep(files[0]), FileGroups(files[1..]))
  }

  /** What `runs` returns: `[]` when anything raised. */
  function RunsRecords(files: seq<Outcome<Json>>): seq<Json>
  {
    match FileGroups(files)
    case Raised => []
    case Ok(groups) => if PostProcessed(groups).Ok? then PostProcessed(groups).value else []
  }

  /** runs, with the directory walk and the file reading abstracted into the
      sequence of what `load_data_from_json` gave for each `.json` file. */
  method Runs(files: seq<Outcome<Json>>) returns (records: seq<Json>)
    ensures records == RunsRecords(files)
  {
    var documents: seq<Json> := [];
    var i := 0;
    assert files[0..] == files;
    ThenNil(FileGroups(files));
    while i < |files|
      invariant i <= |files|
      invariant FileGroups(files) == Then(Ok(documents), FileGroups(files[i..]))
    {
      var file := files[i];
      assert files[i..][1..] == files[i + 1..];
      assert FileGroups(files[i..]) == Then(FileStep(file), FileGroups(files[i + 1..]));
      if file.Raised? {
        return [];
      }
      var data := file.value;
      if Truthy(data) {
        var loaded := LoadDocument(data);
        if loaded.Raised? {
          return [];
        }
        ThenAssocOutcome(Ok(documents), loaded, FileGroups(files[i + 1..]));
        documents := documents + loaded.value;
      } else {
        ThenAssocOutcome(Ok(documents), Ok([]), FileGroups(files[i + 1..]));
        assert documents + [] == documents;
      }
      i := i + 1;
    }
    assert files[i..] == [];
    assert documents + [] == documents;
    records := PostProcessing(documents);
  }

  // ---------------------------------------------------------------------------
  // What load_document emits
  // ---------------------------------------------------------------------------

  /** A group the post-processing can read, carrying the given root info, whose
      `articles` list holds dicts only. */
  predicate GroupUnder(g: Json, root: Json)
  {
    && Readable(g)
    && "root" in g.fields && g.fields["root"] == root
    && forall a :: a in g.fields["articles"].items ==> a.Obj?
  }

  /** The article children of a section, in order (a reference definition,
      without the failure handling of the loop). */
  function ArticleChildren(items: seq<Json>): seq<map<string, Json>>
  {
    if items == [] then []
    else
      (if items[0].Obj? && Level(items[0].fields) == Str("article") then [items[0].fields] else [])
      + ArticleChildren(items[1..])
  }

  /** The article dicts recorded for a sequence of article nodes. */
  function Infos(nodes: seq<map<string, Json>>): (r: seq<Json>)
    ensures |r| == |nodes|
    ensures forall k :: 0 <= k < |nodes| ==> r[k] == ArticleInfo(nodes[k])
  {
    seq(|nodes|, k requires 0 <= k < |nodes| => ArticleInfo(nodes[k]))
  }

  lemma InfosAppend(a: seq<map<string, Json>>, b: seq<map<string, Json>>)
    ensures Infos(a + b) == Infos(a) + Infos(b)
  {
    assert forall k :: 0 <= k < |a + b| ==> Infos(a + b)[k] == (Infos(a) + Infos(b))[k];
  }

  /** A section's `articles` list holds every article child, in order, and the
      loop raises exactly when some child is not a dict. */
  lemma {:induction false} SectionCollectsArticleChildren(items: seq<Json>)
    ensures SectionArticles(items).Ok? <==> forall k :: 0 <= k < |items| ==> items[k].Obj?
    ensures SectionArticles(items).Ok? ==> SectionArticles(items).value == Infos(ArticleChildren(items))
  {
    if items != [] {
      SectionCollectsArticleChildren(items[1..]);
      assert forall k :: 1 <= k < |items| ==> items[k] == items[1..][k - 1];
      var head := if items[0].Obj? && Level(items[0].fields) == Str("article") then [items[0].fields] else [];
      InfosAppend(head, ArticleChildren(items[1..]));
    }
  }

  lemma {:induction false} ChapterGroupsUnder(root: Json, chapter: Json, items: seq<Json>)
    requires root.Obj? && chapter.Obj?
    requires ChapterGroups(root, chapter, items).Ok?
    ensures forall g :: g in ChapterGroups(root, chapter, items).value ==> GroupUnder(g, root)
  {
    if items != [] {
      ChapterGroupsUnder(root, chapter, items[1..]);
      ChapterChildUnder(root, chapter, items[0]);
    }
  }

  lemma ChapterChildUnder(root: Json, chapter: Json, node: Json)
    requires root.Obj? && chapter.Obj?
    requires ChapterChildGroups(root, chapter, node).Ok?
    ensures forall g :: g in ChapterChildGroups(root, chapter, node).value ==> GroupUnder(g, root)
  {
    var groups := ChapterChildGroups(root, chapter, node).value;
    if Level(node.fields) == Str("section") {
      var children := Elements(GetOr(node.fields, "children", Arr([]))).value;
      SectionCollectsArticleChildren(children);
      var articles := SectionArticles(children).value;
      if articles != [] {
        assert articles[0] == ArticleInfo(ArticleChildren(children)[0]);
        var g := Group(root, chapter, LevelInfo("section", node.fields), articles);
        assert Readable(g);
        assert groups == [g];
      }
    } else if Level(node.fields) == Str("article") {
      var g := Group(root, chapter, EmptyInfo("section"), [ArticleInfo(node.fields)]);
      assert Readable(g);
      assert groups == [g];
    }
  }

  lemma {:induction false} RootGroupsUnder(root: Json, items: seq<Json>)
    requires root.Obj?
    requires RootGroups(root, items).Ok?
    ensures forall g :: g in RootGroups(root, items).value ==> GroupUnder(g, root)
  {
    if items != [] {
      RootGroupsUnder(root, items[1..]);
      var node := items[0];
      if Level(node.fields) == Str("chapter") && "children" in node.fields {
        ChapterGroupsUnder(root, LevelInfo("chapter", node.fields), Elements(node.fields["children"]).value);
      }
    }
  }

  /** Every group load_document emits carries the law's own root info, and has a
      non-empty articles list of dicts. */
  lemma GroupsShareRootInfo(data: Json)
    requires DocumentGroups(data).Ok?
    ensures data.Obj?
    ensures forall g :: g in DocumentGroups(data).value ==> GroupUnder(g, RootInfo(data.fields))
  {
    if Traverse(data.fields).Ok? {
      RootGroupsUnder(RootInfo(data.fields), Elements(GetOr(data.fields, "children", Arr([]))).value);
    }
  }

  /** The children a loop visits; `[]` where iterating raises. */
  function Visited(j: Json): seq<Json>
  {
    if Elements(j).Ok? then Elements(j).value else []
  }

  /** The article nodes at or below one child of a chapter. */
  function ChapterChildArticleNodes(node: Json): seq<map<string, Json>>
  {
    if !node.Obj? then []
    else if Level(node.fields) == Str("section") then ArticleChildren(Visited(GetOr(node.fields, "children", Arr([]))))
    else if Level(node.fields) == Str("article") then [node.fields]
    else []
  }

  /** The article nodes below a chapter's children, in document order: articles
      directly under the chapter and articles under its sections. */
  function ChapterArticleNodes(items: seq<Json>): seq<map<string, Json>>
  {
    if items == [] then [] else ChapterChildArticleNodes(items[0]) + ChapterArticleNodes(items[1..])
  }

  /** The article nodes at or below one child of the root. */
  function RootChildArticleNodes(node: Json): seq<map<string, Json>>
  {
    if !node.Obj? then []
    else if Level(node.fields) == Str("chapter") then
      (if "children" in node.fields then ChapterArticleNodes(Visited(node.fields["children"])) else [])
    else if Level(node.fields) == Str("article") then [node.fields]
    else []
  }

  /** The article nodes below the root's children, in document order. */
  function RootArticleNodes(items: seq<Json>): seq<map<string, Json>>
  {
    if items == [] then [] else RootChildArticleNodes(items[0]) + RootArticleNodes(items[1..])
  }

  /** Every article reachable along root -> article, root -> chapter -> article
      or root -> chapter -> section -> article. */
  function ReachableArticles(data: map<string, Json>): seq<map<string, Json>>
  {
    RootArticleNodes(Visited(GetOr(data, "children", Arr([]))))
  }

  /** The articles lists of a sequence of groups, concatenated. */
  function GroupArticles(groups: seq<Json>): seq<Json>
  {
    if groups == [] then []
    else
      var g := groups[0];
      (if g.Obj? && "articles" in g.fields && g.fields["articles"].Arr? then g.fields["articles"].items else [])
      + GroupArticles(groups[1..])
  }

  lemma {:induction false} GroupArticlesAppend(a: seq<Json>, b: seq<Json>)
    ensures GroupArticles(a + b) == GroupArticles(a) + GroupArticles(b)
  {
    if a != [] {
      assert (a + b)[1..] == a[1..] + b;
      GroupArticlesAppend(a[1..], b);
    } else {
      assert a + b == b;
    }
  }

  lemma ChapterChildArticlesGrouped(root: Json, chapter: Json, node: Json)
    requires ChapterChildGroups(root, chapter, node).Ok?
    ensures GroupArticles(ChapterChildGroups(root, chapter, node).value) == Infos(ChapterChildArticleNodes(node))
  {
    if Level(node.fields) == Str("section") {
      SectionCollectsArticleChildren(Visited(GetOr(node.fields, "children", Arr([]))));
    }
  }

  lemma {:induction false} ChapterArticlesGrouped(root: Json, chapter: Json, items: seq<Json>)
    requires ChapterGroups(root, chapter, items).Ok?
    ensures GroupArticles(ChapterGroups(root, chapter, items).value) == Infos(ChapterArticleNodes(items))
  {
    if items != [] {
      ChapterArticlesGrouped(root, chapter, items[1..]);
      ChapterChildArticlesGrouped(root, chapter, items[0]);
      GroupArticlesAppend(ChapterChildGroups(root, chapter, items[0]).value, ChapterGroups(root, chapter, items[1..]).value);
      InfosAppend(ChapterChildArticleNodes(items[0]), ChapterArticleNodes(items[1..]));
    }
  }

  lemma RootChildArticlesGrouped(root: Json, node: Json)
    requires RootChildGroups(root, node).Ok?
    ensures GroupArticles(RootChildGroups(root, node).value) == Infos(RootChildArticleNodes(node))
  {
    if Level(node.fields) == Str("chapter") && "children" in node.fields {
      ChapterArticlesGrouped(root, LevelInfo("chapter", node.fields), Visited(node.fields["children"]));
    }
  }

  lemma {:induction false} RootArticlesGrouped(root: Json, items: seq<Json>)
    requires RootGroups(root, items).Ok?
    ensures GroupArticles(RootGroups(root, items).value) == Infos(RootArticleNodes(items))
  {
    if items != [] {
      RootArticlesGrouped(root, items[1..]);
      RootChildArticlesGrouped(root, items[0]);
      GroupArticlesAppend(RootChildGroups(root, items[0]).value, RootGroups(root, items[1..]).value);
      InfosAppend(RootChildArticleNodes(items[0]), RootArticleNodes(items[1..]));
    }
  }

  /** When the traversal raises nothing, every reachable article lands in exactly
      one group, in document order, and nothing else does. */
  lemma EveryArticleInOneGroup(data: map<string, Json>)
    requires Traverse(data).Ok?
    ensures GroupArticles(Traverse(data).value) == Infos(ReachableArticles(data))
  {
    RootArticlesGrouped(RootInfo(data), Visited(GetOr(data, "children", Arr([]))));
  }

  // ---------------------------------------------------------------------------
  // What each kind of child contributes
  // ---------------------------------------------------------------------------

  /** An article directly under the root: one group with an empty chapter and
      section, holding that article alone. */
  lemma RootArticleChild(root: Json, node: map<string, Json>)
    requires Level(node) == Str("article")
    ensures RootChildGroups(root, Obj(node))
      == Ok([Group(root, EmptyInfo("chapter"), EmptyInfo("section"), [ArticleInfo(node)])])
  {
  }

  /** An article directly under a chapter: one group with that chapter's info and
      an empty section. */
  lemma ChapterArticleChild(root: Json, chapter: Json, node: map<string, Json>)
    requires Level(node) == Str("article")
    ensures ChapterChildGroups(root, chapter, Obj(node))
      == Ok([Group(root, chapter, EmptyInfo("section"), [ArticleInfo(node)])])
  {
  }

  /** A section: exactly one group holding all its article children in order,
      or no group at all when it has none. */
  lemma SectionChild(root: Json, chapter: Json, node: map<string, Json>, children: seq<Json>)
    requires Level(node) == Str("section")
    requires Elements(GetOr(node, "children", Arr([]))) == Ok(children)
    requires forall k :: 0 <= k < |children| ==> children[k].Obj?
    ensures ArticleChildren(children) == [] ==> ChapterChildGroups(root, chapter, Obj(node)) == Ok([])
    ensures ArticleChildren(children) != [] ==>
      ChapterChildGroups(root, chapter, Obj(node))
      == Ok([Group(root, chapter, LevelInfo("section", node), Infos(ArticleChildren(children)))])
  {
    SectionCollectsArticleChildren(children);
  }

  /** Children at an unexpected level contribute nothing, and neither does a
      chapter without a `children` key. */
  lemma SkippedChildren(root: Json, chapter: Json, node: map<string, Json>)
    ensures Level(node) != Str("chapter") && Level(node) != Str("article") ==> RootChildGroups(root, Obj(node)) == Ok([])
    ensures Level(node) == Str("chapter") && "children" !in node ==> RootChildGroups(root, Obj(node)) == Ok([])
    ensures Level(node) != Str("section") && Level(node) != Str("article") ==> ChapterChildGroups(root, chapter, Obj(node)) == Ok([])
    ensures Level(node) != Str("article") ==> ArticleStep(Obj(node)) == Ok([])
  {
  }

  // ---------------------------------------------------------------------------
  // Post-processing and the whole run
  // ---------------------------------------------------------------------------

  /** Post-processing yields exactly one record per group, in order, when every
      group is readable, and raises (so `postprocessing_documents` returns `[]`)
      as soon as one is not. */
  lemma {:induction false} OneRecordPerGroup(docs: seq<Json>)
    ensures PostProcessed(docs).Ok? <==> forall k :: 0 <= k < |docs| ==> Readable(docs[k])
    ensures PostProcessed(docs).Ok? ==>
      && |PostProcessed(docs).value| == |docs|
      && forall k :: 0 <= k < |docs| ==> FlatRecord(docs[k]) == Ok(PostProcessed(docs).value[k])
  {
    if docs != [] {
      var rest := docs[1..];
      OneRecordPerGroup(rest);
      FlatRecordOk(docs[0]);
      if PostProcessed(docs).Ok? {
        var records := PostProcessed(docs).value;
        assert records == [FlatRecord(docs[0]).value] + PostProcessed(rest).value;
        forall k | 0 <= k < |docs|
          ensures Readable(docs[k]) && FlatRecord(docs[k]) == Ok(records[k])
        {
          if k > 0 {
            assert docs[k] == rest[k - 1];
          }
        }
      }
      if forall k :: 0 <= k < |docs| ==> Readable(docs[k]) {
        forall k | 0 <= k < |rest| ensures Readable(rest[k]) {
          assert rest[k] == docs[k + 1];
        }
      }
    }
  }

  lemma {:induction false} FileGroupsUnder(files: seq<Outcome<Json>>)
    requires FileGroups(files).Ok?
    ensures forall g :: g in FileGroups(files).value ==> Readable(g)
  {
    if files != [] {
      FileGroupsUnder(files[1..]);
      if Truthy(files[0].value) {
        GroupsShareRootInfo(files[0].value);
      }
    }
  }

  /** A run whose files all load yields one record per group, in order, each
      built from its group's first article. */
  lemma RunsOneRecordPerGroup(files: seq<Outcome<Json>>)
    requires FileGroups(files).Ok?
    ensures var groups := FileGroups(files).value;
      && |RunsRecords(files)| == |groups|
      && forall k :: 0 <= k < |groups| ==> FlatRecord(groups[k]) == Ok(RunsRecords(files)[k])
  {
    var groups := FileGroups(files).value;
    FileGroupsUnder(files);
    assert forall k :: 0 <= k < |groups| ==> Readable(groups[k]) by {
      forall k | 0 <= k < |groups| ensures Readable(groups[k]) {
        assert groups[k] in groups;
      }
    }
    OneRecordPerGroup(groups);
    assert RunsRecords(files) == PostProcessed(groups).value;
  }

  /** A file loads without aborting the run iff it was read and its value is a
      dict or falsy. */
  predicate FileLoads(file: Outcome<Json>)
  {
    file.Ok? && (file.value.Obj? || !Truthy(file.value))
  }

  /** `runs` collects groups without raising iff every file loads: one truthy
      non-dict file (a top-level list, say) makes `load_document` raise outside
      its `try`, and with it the whole run. */
  lemma {:induction false} FileGroupsOkIff(files: seq<Outcome<Json>>)
    ensures FileGroups(files).Ok? <==> forall k :: 0 <= k < |files| ==> FileLoads(files[k])
  {
    if files != [] {
      FileGroupsOkIff(files[1..]);
      assert forall k :: 1 <= k < |files| ==> files[k] == files[1..][k - 1];
    }
  }

  /** The groups of a concatenation of file lists are the groups of each, in order. */
  lemma {:induction false} FileGroupsAppend(a: seq<Outcome<Json>>, b: seq<Outcome<Json>>)
    ensures FileGroups(a + b) == Then(FileGroups(a), FileGroups(b))
  {
    if a == [] {
      assert a + b == b;
      ThenNil(FileGroups(b));
    } else {
      assert (a + b)[1..] == a[1..] + b;
      FileGroupsAppend(a[1..], b);
      ThenAssocOutcome(FileStep(a[0]), FileGroups(a[1..]), FileGroups(b));
    }
  }

  /** A law file whose traversal raises contributes no group, and the other files
      still produce theirs. */
  lemma MalformedLawSkipped(before: seq<Outcome<Json>>, data: map<string, Json>, after: seq<Outcome<Json>>)
    requires Traverse(data).Raised?
    ensures FileGroups(before + [Ok(Obj(data))] + after) == FileGroups(before + after)
    ensures RunsRecords(before + [Ok(Obj(data))] + after) == RunsRecords(before + after)
  {
    var bad := [Ok(Obj(data))];
    assert bad[1..] == [];
    assert FileStep(bad[0]) == Ok([]);
    assert FileGroups(bad) == Then(Ok([]), FileGroups(bad[1..]));
    ThenNil(Ok([]));
    assert FileGroups(bad) == Ok([]);
    FileGroupsAppend(before, bad);
    if FileGroups(before).Ok? {
      assert FileGroups(before).value + [] == FileGroups(before).value;
    }
    assert FileGroups(before + bad) == FileGroups(before);
    FileGroupsAppend(before + bad, after);
    FileGroupsAppend(before, after);
    var withBad, without := before + bad + after, before + after;
    assert FileGroups(withBad) == FileGroups(without);
    assert RunsRecords(withBad) == RunsRecords(without);
  }

  lemma {:induction false} GroupArticlesCover(groups: seq<Json>)
    requires forall k :: 0 <= k < |groups| ==> Readable(groups[k])
    ensures |groups| <= |GroupArticles(groups)|
  {
    if groups != [] {
      assert Readable(groups[0]);
      forall k | 0 <= k < |groups| - 1 ensures Readable(groups[1..][k]) {
        assert groups[1..][k] == groups[k + 1];
      }
      GroupArticlesCover(groups[1..]);
    }
  }

  /** One law file whose traversal raises nothing: `runs` yields one record per
      group, hence at most one per reachable article (a section's later articles
      are dropped), and every record carries the law's title, summary and dates. */
  lemma DocumentRecords(data: map<string, Json>)
    requires data != map[] && Traverse(data).Ok?
    ensures
      var groups := Traverse(data).value;
      var records := RunsRecords([Ok(Obj(data))]);
      && |records| == |groups| <= |ReachableArticles(data)|
      && forall k :: 0 <= k < |records| ==> CarriesLaw(records[k], data)
  {
    var groups := Traverse(data).value;
    assert [Ok(Obj(data))][1..] == [];
    assert groups + [] == groups;
    assert FileGroups([Ok(Obj(data))]) == Ok(groups);
    GroupsShareRootInfo(Obj(data));
    RunsOneRecordPerGroup([Ok(Obj(data))]);
    var records := RunsRecords([Ok(Obj(data))]);
    forall k | 0 <= k < |groups| ensures GroupUnder(groups[k], RootInfo(data)) {
      assert groups[k] in groups;
    }
    GroupArticlesCover(groups);
    EveryArticleInOneGroup(data);
    forall k | 0 <= k < |records| ensures CarriesLaw(records[k], data) {
      RecordRootFields(groups[k], data);
    }
  }

  /** A flat record carrying the law's own title, summary and dates. */
  predicate CarriesLaw(rec: Json, data: map<string, Json>)
  {
    && rec.Obj?
    && rec.fields.Keys == RecordKeys
    && rec.fields["root_title"] == GetOr(data, "title", EmptyText)
    && rec.fields["root_summary"] == GetOr(data, "summary", EmptyText)
    && rec.fields["root_issue_date"] == GetOr(data, "issue_date", EmptyText)
    && rec.fields["root_effective_date"] == GetOr(data, "effective_date", EmptyText)
  }

  lemma RecordRootFields(g: Json, data: map<string, Json>)
    requires GroupUnder(g, RootInfo(data))
    ensures CarriesLaw(FlatRecord(g).value, data)
  {
    FlatRecordKeys(g);
    FlatRecordRoot(g);
    assert Context(g.fields, "root") == RootInfo(data).fields;
  }

  /** The record of an emitted group takes its `id` from the `_id` of the
      group's first article. */
  lemma GroupRecordId(root: Json, chapter: Json, section: Json, articles: seq<Json>, first: map<string, Json>)
    requires root.Obj? && chapter.Obj? && section.Obj?
    requires articles != [] && articles[0] == ArticleInfo(first)
    ensures FlatRecord(Group(root, chapter, section, articles)).Ok?
    ensures "id" in FlatRecord(Group(root, chapter, section, articles)).value.fields
    ensures FlatRecord(Group(root, chapter, section, articles)).value.fields["id"] == GetOr(first, "_id", EmptyText)
  {
    var g := Group(root, chapter, section, articles);
    assert Readable(g);
    FlatRecordKeys(g);
    FlatRecordArticle(g);
    assert FirstArticle(g) == ArticleInfo(first).fields;
  }

  /** A law holding one chapter, one section and two articles `a1` and `a2`. */
  const TwoArticleFirst: map<string, Json> := map["level" := Str("article"), "_id" := Str("a1"), "text" := Str("first")]
  const TwoArticleSecond: map<string, Json> := map["level" := Str("article"), "_id" := Str("a2"), "text" := Str("second")]
  const TwoArticleSection: map<string, Json> :=
    map["level" := Str("section"), "children" := Arr([Obj(TwoArticleFirst), Obj(TwoArticleSecond)])]
  const TwoArticleChapter: map<string, Json> := map["level" := Str("chapter"), "children" := Arr([Obj(TwoArticleSection)])]
  const TwoArticleLaw: map<string, Json> := map["title" := Str("law"), "children" := Arr([Obj(TwoArticleChapter)])]

  lemma TwoArticleSectionGroup()
    ensures SectionArticles([Obj(TwoArticleFirst), Obj(TwoArticleSecond)])
      == Ok([ArticleInfo(TwoArticleFirst), ArticleInfo(TwoArticleSecond)])
  {
    var first, second := TwoArticleFirst, TwoArticleSecond;
    assert [Obj(first), Obj(second)][1..] == [Obj(second)] && [Obj(second)][1..] == [];
    assert ArticleStep(Obj(first)) == Ok([ArticleInfo(first)]);
    assert ArticleStep(Obj(second)) == Ok([ArticleInfo(second)]);
    assert [ArticleInfo(second)] + [] == [ArticleInfo(second)];
    assert SectionArticles([Obj(second)]) == Ok([ArticleInfo(second)]);
    assert [ArticleInfo(first)] + [ArticleInfo(second)] == [ArticleInfo(first), ArticleInfo(second)];
    assert SectionArticles([Obj(first), Obj(second)]) == Then(ArticleStep(Obj(first)), SectionArticles([Obj(second)]));
  }

  /** The one group the example law flattens into. */
  const TwoArticleGroup: Json := Group(
    RootInfo(TwoArticleLaw), LevelInfo("chapter", TwoArticleChapter), LevelInfo("section", TwoArticleSection),
    [ArticleInfo(TwoArticleFirst), ArticleInfo(TwoArticleSecond)])

  lemma TwoArticleTraversal()
    ensures Traverse(TwoArticleLaw) == Ok([TwoArticleGroup])
  {
    var law, chapter, section := TwoArticleLaw, TwoArticleChapter, TwoArticleSection;
    TwoArticleSectionGroup();
    var group := TwoArticleGroup;
    assert ChapterChildGroups(RootInfo(law), LevelInfo("chapter", chapter), Obj(section)) == Ok([group]);
    assert [Obj(section)][1..] == [] && [Obj(chapter)][1..] == [];
    assert [group] + [] == [group];
    assert ChapterGroups(RootInfo(law), LevelInfo("chapter", chapter), [Obj(section)]) == Ok([group]);
    assert RootChildGroups(RootInfo(law), Obj(chapter)) == Ok([group]);
    assert RootGroups(RootInfo(law), [Obj(chapter)]) == Ok([group]);
  }

  /** Both articles of the example section are reachable. */
  lemma TwoArticlesReachable()
    ensures |ReachableArticles(TwoArticleLaw)| == 2
  {
    TwoArticleTraversal();
    EveryArticleInOneGroup(TwoArticleLaw);
    assert [TwoArticleGroup][1..] == [];
    assert GroupArticles([TwoArticleGroup]) == [ArticleInfo(TwoArticleFirst), ArticleInfo(TwoArticleSecond)] + [];
  }

  /** The example group's record takes its id from the first article. */
  lemma TwoArticleGroupRecord()
    ensures FlatRecord(TwoArticleGroup).Ok?
    ensures GetOr(FlatRecord(TwoArticleGroup).value.fields, "id", Null) == Str("a1")
  {
    var articles := [ArticleInfo(TwoArticleFirst), ArticleInfo(TwoArticleSecond)];
    GroupRecordId(RootInfo(TwoArticleLaw), LevelInfo("chapter", TwoArticleChapter),
      LevelInfo("section", TwoArticleSection), articles, TwoArticleFirst);
    assert GetOr(TwoArticleFirst, "_id", EmptyText) == Str("a1");
  }

  /** A directory holding the example law and a file whose value is the list
      `[null]` yields no record at all, though the law alone yields one. */
  lemma NonDictFileAbortsRun()
    ensures RunsRecords([Ok(Obj(TwoArticleLaw)), Ok(Arr([Null]))]) == []
    ensures RunsRecords([Ok(Obj(TwoArticleLaw))]) != []
  {
    var files := [Ok(Obj(TwoArticleLaw)), Ok(Arr([Null]))];
    assert !FileLoads(files[1]);
    FileGroupsOkIff(files);
    SectionOfTwoArticlesYieldsOneRecord();
  }

  /** The example law's two articles are both reachable, yet `runs` yields a
      single record, built from the first of them. */
  lemma SectionOfTwoArticlesYieldsOneRecord()
    ensures
      var records := RunsRecords([Ok(Obj(TwoArticleLaw))]);
      && |ReachableArticles(TwoArticleLaw)| == 2
      && |records| == 1
      && FlatRecord(TwoArticleGroup) == Ok(records[0])
      && GetOr(records[0].fields, "id", Null) == Str("a1")
  {
    TwoArticlesReachable();
    TwoArticleTraversal();
    TwoArticleGroupRecord();
    var files := [Ok(Obj(TwoArticleLaw))];
    assert files[1..] == [];
    assert FileStep(files[0]) == Ok([TwoArticleGroup]);
    assert FileGroups(files) == Ok([TwoArticleGroup] + []);
    RunsOneRecordPerGroup(files);
  }
}
