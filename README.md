# Legal retrieval pipeline: flattening, batching and context rendering

This project models the deterministic core of a retrieval pipeline for
Vietnamese legal documents, and proves properties of that model. The pipeline
has three parts:

- **Document flattener** (`DocumentLoader`, `document_loader.dfy`). It walks a
  parsed law, which is a tree root → chapter → section → article. It emits
  groups `{root, chapter, section, articles}`, turns every group into one flat
  record, and concatenates the groups of every file before post-processing them
  once (`runs`). JSON values are modelled as a general datatype (`JsonValue`,
  `json_value.dfy`). This makes precise the shapes that make the Python code
  throw, and the `try`/`except` blocks that turn a throw into an empty list.
- **Uploader** (`QdrantUpload`, `uploader.dfy`). `batch_creater` cuts the
  records into batches. Each batch becomes one point per record, with three
  embeddings of the record's `article_summary` and a payload copied from the
  record. `QdrantUploader.upload_documents` hands the points to the vector store
  one batch at a time. The class keeps the points the store has received in the
  field `uploaded`. Building a point raises on an `id` that is neither a string
  nor an integer. The flattener gives a null `id` to an article whose `_id` is
  null, and such a record aborts the upload (`BadIdAbortsRun`).
- **Context rendering** (`HybridSearch`, `search.dfy`). This is the tail of
  `HybridSearch.query`. It keeps the points whose fused score reaches the
  threshold and renders each kept point as a labelled text block. The result is
  the stripped text, or the sentence "No relevant documents found." when no
  point is kept.

The loops of the source are methods with loop invariants: `LoadDocument`,
`AppendChapterGroups`, `CollectArticles`, `PostProcessing`, `Runs`, `UploadAll`
and `Query`. Each loop method is proved equal to a recursive specification
function. The properties are then proved about those functions.
`UploadDocuments` has no loop of its own: it cuts the batches and calls
`UploadAll`.

One might expect one flat record per article. The code emits one group per
section, holding all of the section's articles, and builds one record per group
from the group's first article. The model follows the code. `DocumentRecords` proves that there is at most one record per
reachable article. `SectionOfTwoArticlesYieldsOneRecord` exhibits a section
with two articles that yields a single record.

A law file whose traversal throws contributes nothing, and the other files
still yield their records (`MalformedLawSkipped`): the `try` in
`load_document` catches the exception. This isolation does not hold for a file
whose value is truthy but not a dict, such as a top-level list. There
`load_document` raises while building `root_info`, outside its `try`, and
`runs` then returns no record at all, for every file (`FileGroupsOkIff`,
`NonDictFileAbortsRun`). A read error other than a missing file or invalid
JSON, such as a permission or decoding error, also aborts the whole run, since
`load_data_from_json` catches only those two.

## Model

| member | source | states |
|---|---|---|
| DocumentLoader.CollectArticles | src/process/process_data.py:120-128 | The innermost loop builds exactly the `articles` list of the specification function `SectionArticles`, and raises exactly when it does. |
| DocumentLoader.SectionCollectsArticleChildren | src/process/process_data.py:120-128 | A section's `articles` list is built without raising iff every child is a dict. It then holds the article dict of every child whose level is "article", in order, and nothing else. |
| DocumentLoader.AppendChapterGroups | src/process/process_data.py:113-149 | The loop over a chapter's children appends exactly the groups of `ChapterGroups` to `documents`, or raises when that function raises. |
| DocumentLoader.LoadDocument | src/process/process_data.py:76-170 | load_document raises when `data` is not a dict, since `root_info` is built outside the `try`. Otherwise it returns the traversal's groups, or `[]` when the traversal throws. |
| DocumentLoader.GroupsShareRootInfo | src/process/process_data.py:87-163 | Every emitted group carries the same root info, built from the law's own title, summary, issue_date and effective_date. Every emitted group has a non-empty `articles` list, and every item of that list is a dict. |
| DocumentLoader.RootArticleChild | src/process/process_data.py:151-163 | An article directly under the root yields exactly one group. The group has an empty chapter and section and holds that article alone. |
| DocumentLoader.ChapterArticleChild | src/process/process_data.py:137-149 | An article directly under a chapter yields exactly one group. The group has that chapter's title and summary, an empty section, and the article alone. |
| DocumentLoader.SectionChild | src/process/process_data.py:114-135 | A section yields exactly one group holding all of its article children in order. A section with no article child yields no group. |
| DocumentLoader.SkippedChildren | src/process/process_data.py:103-163 | A child at an unexpected level contributes nothing, at the root, under a chapter and under a section. A chapter without a `children` key contributes nothing. |
| DocumentLoader.EveryArticleInOneGroup | src/process/process_data.py:103-163 | When the traversal does not throw, the concatenated `articles` lists of the groups are the reachable articles exactly, once each and in document order. |
| DocumentLoader.ContextFieldValue | src/process/process_data.py:54-61 | `doc.get(part, {}).get(key, "")` raises iff the part is present but not a dict. Otherwise it gives the key's value, or "" when the part or the key is missing. |
| DocumentLoader.FirstArticleFieldValue | src/process/process_data.py:63 | The unguarded `articles[0].get(...)` succeeds iff `articles` is a non-empty list whose first item is a dict. It then reads that first item. |
| DocumentLoader.GuardedArticleFieldValue | src/process/process_data.py:62-64 | On a non-empty `articles` list whose first item is a dict, the guarded form passes its guard and reads the first article, as the unguarded one does. |
| DocumentLoader.FlatRecordOk | src/process/process_data.py:53-65 | A group becomes a record iff it is readable: a dict whose `root`, `chapter` and `section` are dicts or absent, and whose `articles` is a non-empty list starting with a dict. |
| DocumentLoader.FlatRecordKeys | src/process/process_data.py:53-65 | A record always has exactly the eleven record keys. |
| DocumentLoader.FlatRecordRoot | src/process/process_data.py:54-57 | The `root_*` fields come from the group's `root` dict, and are "" where the dict or the key is missing. |
| DocumentLoader.FlatRecordLevels | src/process/process_data.py:58-61 | The chapter and section fields come from the group's `chapter` and `section` dicts. They are "" when the group has no such dict. |
| DocumentLoader.FlatRecordArticle | src/process/process_data.py:62-64 | `raw_articles`, `article_summary` and `id` come from the group's first article only. |
| DocumentLoader.GroupRecordId | src/process/process_data.py:120-135 | The record of an emitted section group takes its `id` from the `_id` of the section's first article. |
| DocumentLoader.PostProcessing | src/process/process_data.py:37-73 | The loop returns one record per group, in order. It returns `[]` as soon as one group raises. |
| DocumentLoader.OneRecordPerGroup | src/process/process_data.py:52-73 | Post-processing succeeds iff every group is readable. It then yields exactly one record per group, in order, and record k is the record of group k. |
| DocumentLoader.Runs | src/process/process_data.py:172-204 | runs concatenates the groups of every truthy parsed file, in walk order, and post-processes them once. A file read that raises, or a load_document that raises, makes the result `[]`. |
| DocumentLoader.FileGroupsOkIff | src/process/process_data.py:183-204 | Collecting the groups raises iff some file could not be read or holds a truthy value that is not a dict. |
| DocumentLoader.MalformedLawSkipped | src/process/process_data.py:102-170 | A dict file whose traversal throws contributes no group and no record. The other files yield exactly what they yield without it. |
| DocumentLoader.NonDictFileAbortsRun | src/process/process_data.py:87-93 | Adding a file holding `[null]` beside a law that yields a record makes runs yield no record at all. |
| DocumentLoader.RunsOneRecordPerGroup | src/process/process_data.py:183-200 | When every file loads, runs yields exactly one record per collected group, in order. |
| DocumentLoader.DocumentRecords | src/process/process_data.py:120-135 | For one law whose traversal does not throw, runs yields one record per group. That is at most one per reachable article. Every record carries the law's title, summary and dates. |
| DocumentLoader.SectionOfTwoArticlesYieldsOneRecord | src/process/process_data.py:120-135 | A law with one section holding two articles has two reachable articles, but runs yields one record, whose `id` is the first article's. |
| QdrantUpload.BatchCreater | src/vectordb/upload_qdrant.py:41-54 | Batching raises iff the batch size is zero. A negative batch size yields no batch. |
| QdrantUpload.BatchesRestoreDocuments | src/vectordb/upload_qdrant.py:53-54 | For a positive batch size, concatenating the batches gives back the document list exactly. |
| QdrantUpload.BatchSizes | src/vectordb/upload_qdrant.py:53-54 | Every batch is non-empty and holds at most `batch_size` documents. Every batch but the last holds exactly `batch_size`. |
| QdrantUpload.BatchCount | src/vectordb/upload_qdrant.py:53 | There are ceil(len(documents) / batch_size) batches. No documents yield no batches. |
| QdrantUpload.Column | src/vectordb/upload_qdrant.py:152-162 | `[doc[key] for doc in batch]` succeeds iff every record is a dict holding the key. It then yields the records' values in order. |
| QdrantUpload.Table | src/vectordb/upload_qdrant.py:152-162 | The eleven comprehensions succeed iff every record holds every required key. Each column then lists its key's values, record by record. |
| QdrantUpload.BatchPoints | src/vectordb/upload_qdrant.py:152-191 | A batch becomes points iff three things hold. Every record holds every required key. All three embedders answer with at least one embedding per record; extra embeddings are ignored because the comprehension runs over `range(len(ids))`. Every `id` is a string or an integer, the id types `models.PointStruct` accepts. There is then one point per record. |
| QdrantUpload.BatchPointsFollowRecords | src/vectordb/upload_qdrant.py:162-191 | Point i has the i-th record's `id` as id and as payload `id`. Its payload copies the ten payload fields and has no `article_summary`. Its vectors are the i-th embeddings of the batch's summaries. |
| QdrantUpload.UploadBatchesStored | src/vectordb/upload_qdrant.py:150-194 | The store receives the points of a prefix of the concatenated batches, one per record and in order. When the loop finishes, it has received all of them. |
| QdrantUpload.StoredPointsFollowDocuments | src/vectordb/upload_qdrant.py:147-199 | Point k handed to the store carries document k's id and payload fields. A finished run with a positive batch size hands every document to the store exactly once, in order. A negative batch size finishes having handed nothing. |
| QdrantUpload.MissingKeyAbortsRun | src/vectordb/upload_qdrant.py:150-199 | A zero batch size makes the run raise. With a positive batch size, a single record missing a required key makes it raise too. |
| QdrantUpload.BadIdAbortsRun | src/vectordb/upload_qdrant.py:170-199 | With a positive batch size, one record whose `id` is neither a string nor an integer makes the run raise. This holds whatever the embedders and the store do. A null `id` arises from an article whose `_id` is null (src/process/process_data.py:125, 140, 154). |
| QdrantUpload.UploadCompletesIff | src/vectordb/upload_qdrant.py:150-194 | The batch loop finishes iff every batch gets through: its records hold every key and a string or integer `id`, all three embedders answer, and the store takes its points. A failure in any batch aborts the run. |
| QdrantUpload.RunCompletesIff | src/vectordb/upload_qdrant.py:147-199 | upload_documents returns without raising iff the batch size is non-zero and every batch gets through. |
| QdrantUpload.FlattenedRecordsHaveColumns | src/vectordb/upload_qdrant.py:152-162 | Every record the flattener's runs produces holds every key the upload loop reads. |
| QdrantUpload.QdrantUploader.constructor | src/vectordb/upload_qdrant.py:59-94 | The uploader keeps its documents, batch size, embedders and store. Nothing has been uploaded yet. |
| QdrantUpload.QdrantUploader.UploadBatch | src/vectordb/upload_qdrant.py:152-194 | One iteration reports success iff the batch goes through: its points can be built and the store takes them. It then appends exactly those points to the log. Otherwise it stores nothing. |
| QdrantUpload.QdrantUploader.UploadAll | src/vectordb/upload_qdrant.py:150-194 | The loop appends to the store exactly the points of `UploadBatches`, and finishes iff that run does. |
| QdrantUpload.QdrantUploader.UploadDocuments | src/vectordb/upload_qdrant.py:142-199 | upload_documents appends to the store exactly what the run stores. It returns without raising iff the run finishes. |
| HybridSearch.Decimal | src/lawbot/hybrid_search.py:115 | `str(i + 1)` is a non-empty string of digits without a leading zero. |
| HybridSearch.DecimalRoundTrip | src/lawbot/hybrid_search.py:115 | Reading the rendered label back gives the number. |
| HybridSearch.HeaderShape | src/lawbot/hybrid_search.py:115 | Every block header opens with "Document " followed by a digit. |
| HybridSearch.BodyFollowsTable | src/lawbot/hybrid_search.py:116-124 | A block's body is one line per entry of the table of nine (label, payload key) pairs, in table order, each showing the payload's value or "" when the key is missing, then a blank line. |
| HybridSearch.KeptPositions | src/lawbot/hybrid_search.py:112-113 | Kept positions are positions of the response. |
| HybridSearch.KeptPositionsExact | src/lawbot/hybrid_search.py:112-113 | A point is kept iff its score is at least the threshold. Kept positions are strictly increasing, so blocks keep the store's order. |
| HybridSearch.RenderedIsKeptBlocks | src/lawbot/hybrid_search.py:111-124 | The accumulated text is the blocks of the kept points, in response order. Each block is labelled with its position in the full response, so labels skip filtered points. |
| HybridSearch.RenderedEmptyIffNoneKept | src/lawbot/hybrid_search.py:111-126 | The accumulated text is empty iff no point is kept. |
| HybridSearch.RenderedOpensWithFirstKept | src/lawbot/hybrid_search.py:115 | When a point is kept, the text opens with the header of the first kept point. |
| HybridSearch.TrimStart | src/lawbot/hybrid_search.py:126 | Removes exactly the leading whitespace, as Python's `str.isspace` defines it. |
| HybridSearch.TrimEnd | src/lawbot/hybrid_search.py:126 | Removes exactly the trailing whitespace. |
| HybridSearch.Strip | src/lawbot/hybrid_search.py:126 | `s.strip()` is the slice of `s` between its leading and trailing whitespace. Neither end of the slice is whitespace. |
| HybridSearch.StripKeepsHeader | src/lawbot/hybrid_search.py:126 | Stripping text that opens with a block header keeps "Document " at its start. |
| HybridSearch.Query | src/lawbot/hybrid_search.py:111-126 | With no point at or above the threshold, including an empty response, the result is exactly "No relevant documents found.". Otherwise it is the stripped text of the kept blocks, which starts with "Document " and is never empty. |

## Left out

- File and directory I/O is not modelled. This covers `load_data_from_json`, `load_documents`, the `os.walk` in `runs` and the `__main__` blocks. `runs` takes, in walk order, what `load_data_from_json` gave for each `.json` file: the parsed value, `{}` for a missing file or invalid JSON (which `runs` skips), or a raised exception for any other read error.
- JSON numbers are integers. Floating-point values are not modelled.
- The embedding models (OpenAI, BM25, ColBERT) are not modelled. They are parameters of the uploader: functions from a batch's texts to embeddings or an exception.
- The vector store's `upload_points` is a parameter that either takes every point of a batch or raises.
- QdrantUpload.BatchPoints: the id check follows qdrant_client's declaration of `PointStruct.id` as a strict int or a strict str; that library is not part of this model. The store's own checks of an id, such as the UUID format of a string id, are part of `accepts`.
- QdrantUpload.StoredPointsFollowDocuments: `uploaded` is the list of points handed to the store. The store upserts by id, so records that share an `id` (a reused `_id`) leave fewer points in the collection. An id the store refuses, such as `""` for a missing `_id` (the store takes only unsigned integers and UUIDs), makes the store call raise, which is part of `accepts`; the collection's contents are not modelled.
- QdrantUpload.QdrantUploader.UploadDocuments: does not model partial writes from a store call that fails after storing some sub-batches, because the store is not visible.
- Collection creation (`create_client`) and the client construction are not modelled.
- The query's three embeddings (src/lawbot/hybrid_search.py:69-78) are calls into the OpenAI client and two fastembed models, and are not modelled. The three prefetches with limit 10, Reciprocal Rank Fusion and the limit of 5 (src/lawbot/hybrid_search.py:80-108) run inside the store and are not modelled either. `Query` takes the store's returned points, in order, as its input.
- Scores and the threshold are `real`. Floating-point rounding is not modelled; only the `>=` comparison matters.
- HybridSearch.Field: payload values are strings. The `str()` that an f-string applies to a non-string payload value is not modelled.
- Logging, `tqdm` progress bars and the `print` after a successful upload are not modelled.
- src/lawbot/chat_service.py, src/lawbot/chat_api.py and src/lawbot/prompt.py are not part of this model. They hold prompt formatting, a streamed chat completion, HTTP endpoints and tracing.
