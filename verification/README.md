# NICE classification assistant: a Dafny model of its core

The repository suggests a NICE class for a free-text product description. The
work has two phases:

- An offline indexer reads the class records exported from the NICE taxonomy
  XML. It lower-cases every introduction, heading item, include, exclude and
  good-or-service label, embeds each one, and stores it in a nested
  dictionary `field -> text -> (vector, payload)`. Every field except
  `good_or_service` then becomes one Qdrant collection of points numbered
  `0..n-1`.
- At question time the `NCLAgent` embeds the description and searches the
  four collections `introduction`, `heading`, `include` and `exclude`. It
  takes the union of the class ids in the hits, renders four sentences for
  each candidate class, appends a fixed four-message frame around the
  description, and returns the chat model's answer.

The model has seven modules:

- `Common`: the class record, the payload, the error cases, `Result`/`Option`,
  and sequence/set helpers.
- `Text`: ASCII `lower()`, decimal rendering of class ids, and the
  comma-terminated term lists of the prompt, with their read-back.
- `Taxonomy`: the mutable XML record builders (`GoodOrService`,
  `ExplanatoryNote`, `ClassText` and `NiceClass`) as classes. `NiceClass.ToDict`
  flattens a class into the record the other two phases consume.
- `OrderedDict`: a Python `dict` as a map plus the insertion order of its
  keys.
- `Indexer`: `process_per_class`, `push_qdrant_store`, `COLLECTION_INFO` and
  `main`. Specification functions over the store are paired with the
  `IndexStore` class, whose methods update the store in place.
- `Snapshot`: `defaultdict_to_dict` over a small model of Python values, both
  as written and as evidently intended.
- `Agent`: the class table, candidate retrieval, templates and message
  assembly, with the `NCLAgent` class.

The embedding service, the vector search and the chat completion are function
parameters or fields (`embed`, `search`, `chat`). Qdrant writes are recorded as
the list of `Upload`s they would perform.

Behaviours of the code that the model keeps as they are:

- Duplicate class ids do not fail: the last record wins
  (`Agent.BuildTableExact`).
- A candidate without a record raises a KeyError
  (`Agent.NCLAgent.BuildTemplatePerClass`, `Agent.NCLAgent.AssemblePrompt`).
- Candidates are visited in Python's set order, which the model leaves open
  (the ghost `order`).
- Every message, the class templates included, has the role `user`
  (`Agent.PromptShape`).
- An empty description is accepted like any other.

## Model

| member | source | states |
|---|---|---|
| Taxonomy.NiceClass.ToDict | xml_parse.py:16-27 | fails exactly when `classTexts` is unset; otherwise `class_id` is the class number and heading, introduction, include and exclude are the class texts' lists, while `good_or_service` is every label of every good or service, in order |
| Common.FlattenAt | xml_parse.py:23-26 | element `k` of the `i`-th list (label `k` of the `i`-th good or service) sits right after the elements of the earlier lists in the flattened list |
| Common.FlattenLength | xml_parse.py:23-26 | the flattened list has one entry per element of each list |
| Common.FlattenAppend | xml_parse.py:23-26 | flattening distributes over concatenation, so relative order is kept |
| Taxonomy.LabelsOf | xml_parse.py:24-25 | one label list per good or service, positionally |
| Taxonomy.GoodOrService.constructor | xml_parse.py:30-34 | empty basic number, id and labels |
| Taxonomy.ClassText.constructor | xml_parse.py:37-41 | empty id and heading, and a fresh empty explanatory note |
| Taxonomy.ClassText.AddHeadingItem | xml_parse.py:43-44 | the item is appended at the end, earlier items are untouched, and the id and note are unchanged |
| Taxonomy.ExplanatoryNote.constructor | xml_parse.py:47-51 | empty introduction and example lists |
| Taxonomy.ExplanatoryNote.AddInclude | xml_parse.py:53-54 | appends to the include list only |
| Taxonomy.ExplanatoryNote.AddExclude | xml_parse.py:56-57 | appends to the exclude list only |
| Taxonomy.NiceClass.constructor | xml_parse.py:8-14 | class number 0, empty strings, no class texts, no goods or services |
| Text.Lower | data_retrieve.py:114 | same length; each ASCII upper-case letter becomes the lower-case letter at the same place in the alphabet, every other character is kept, so no upper-case ASCII letter remains |
| Text.LowerIdempotent | data_retrieve.py:128 | lower-casing twice equals lower-casing once, so keys stored lower-cased are stable |
| Text.NatDecimal | app/extensions.py:68 | at least one digit, only digits, and no leading zero |
| Text.IntDecimal | app/extensions.py:68 | `str(class_id)` in the f-string: a leading minus sign exactly for a negative id, digits everywhere else, and no leading zero |
| Text.IntDecimalRoundTrip | app/extensions.py:68 | the class id rendered into a sentence reads back to the same integer |
| Text.Suffixed | app/extensions.py:69-70 | the text the loop `t = t + term + ","` appends: empty exactly when there are no terms, and otherwise ending in a comma |
| Text.SuffixedSnoc | app/extensions.py:69-70 | one step `t = t + term + ","` extends the rendering of the terms seen so far |
| Text.SuffixedAppend | app/extensions.py:69-70 | rendering distributes over concatenation of term lists |
| Text.SuffixedLength | app/extensions.py:69-70 | the rendering has one character per term character plus one comma per term |
| Text.SplitSuffixed | app/extensions.py:68-79 | comma-free terms are recovered, in order, from their rendering |
| Text.SuffixedAmbiguous | app/extensions.py:69-70 | with a comma inside a term, two different lists render identically |
| OrderedDict.Dict.Put | data_retrieve.py:115-130 | `d[k] = v`: the map is updated, an existing key keeps its position, and a new key is appended to the iteration order |
| OrderedDict.Empty | data_retrieve.py:176 | an empty, well-formed dict |
| Indexer.Write | data_retrieve.py:130 | the store stays well-formed and gains the field |
| Indexer.WriteLookup | data_retrieve.py:130 | a write changes exactly one `store[field][text]` |
| Indexer.IndexStore.constructor | data_retrieve.py:176 | an empty store |
| Indexer.WriteItems | data_retrieve.py:125-130 | the store after the inner loop over one field's items; it stays well-formed and gains at most that field |
| Indexer.WriteFields | data_retrieve.py:119-130 | the store after the outer loop over the list fields; it stays well-formed and gains only those fields |
| Indexer.Processed | data_retrieve.py:109-130 | the store after one `process_per_class` call; it stays well-formed |
| Indexer.ProcessedAll | data_retrieve.py:178-179 | the store after `process_per_class` ran over every record in order; it stays well-formed |
| Indexer.IndexStore.ProcessPerClass | data_retrieve.py:109-130 | the new store is the specification `Processed` of the old one, and it stays well-formed |
| Indexer.IndexStore.StoreItems | data_retrieve.py:125-130 | the inner loop writes every lower-cased item with its embedding and payload |
| Indexer.ProcessedLookup | data_retrieve.py:109-130 | after one call, each text the class writes holds the embedding of the lower-cased text and the class id, overwriting any earlier entry; every other entry is unchanged |
| Indexer.ProcessedIntroduction | data_retrieve.py:112-118 | the lower-cased introduction is stored with its vector and payload |
| Indexer.ProcessedItem | data_retrieve.py:119-130 | every item of every list field is stored under its lower-cased text |
| Indexer.WriteItemsLookup | data_retrieve.py:125-130 | the inner loop's effect on any entry |
| Indexer.WriteFieldsLookup | data_retrieve.py:119-130 | the outer loop's effect on any entry |
| Indexer.IndexStore.ProcessAll | data_retrieve.py:178-179 | the loop over the records leaves the store the specification `ProcessedAll` of the old one, and well-formed |
| Indexer.ProcessedAllFields | data_retrieve.py:178-179 | a store built from records has only fields listed in `COLLECTION_INFO` |
| Indexer.CollectionInfoIsIdentity | data_retrieve.py:45-61 | every field maps to the collection of the same name |
| Indexer.PointsAt | data_retrieve.py:139-151 | the points of a field carry ids `0..n-1` in iteration order, with the stored vector and payload |
| Indexer.PointsOfField | data_retrieve.py:139-151 | one point per stored text, and every stored text has its point |
| Indexer.Push | data_retrieve.py:133-163 | the uploads and the KeyError of `push_qdrant_store` over the fields in iteration order: at most one upload per field, and an error only for a listed field missing from `COLLECTION_INFO` |
| Indexer.Kept | data_retrieve.py:136-138 | a field is kept iff it is listed and not in `skip_fields` |
| Indexer.UploadsFor | data_retrieve.py:139-163 | one upload per field, in order, to the collection of the field's own name with that field's points |
| Indexer.IndexStore.PushQdrantStore | data_retrieve.py:133-163 | returns the uploads and the error of the specification `Push` over the store's fields in iteration order |
| Indexer.IndexStore.CollectPoints | data_retrieve.py:139-151 | the inner loop builds exactly the field's points |
| Indexer.PushComplete | data_retrieve.py:133-163 | when every non-skipped field is known, nothing fails and the uploads are `UploadsFor` the kept fields: each non-skipped field once, in order, to its own collection with its points |
| Indexer.PushFailure | data_retrieve.py:137-141 | the push fails exactly when a non-skipped field is missing from `COLLECTION_INFO`, and the error names that field |
| Indexer.PushSkips | data_retrieve.py:136-138 | no upload targets a skipped field |
| Indexer.BuildIndex | data_retrieve.py:174-188 | processing all records then pushing never fails; every field of the processed store except `good_or_service` is uploaded once, in order, to its own collection with its points, and every upload targets a collection of `COLLECTION_INFO` |
| Indexer.SnapshotAsWrittenFails | data_retrieve.py:181-186 | converting any store that holds an item raises |
| Indexer.SnapshotCorrected | data_retrieve.py:181-183 | the corrected conversion leaves no defaultdict and keeps every field, text, vector and payload |
| Indexer.IndexStore.Snapshot | data_retrieve.py:181-183 | the snapshot value is free of defaultdicts and equal to the store once defaultdicts are read as dicts |
| Snapshot.FromPairs | data_retrieve.py:40 | `dict(iterable)`: succeeds exactly when every element is an iterable of length 2 with a hashable first item, with at most one entry per element |
| Snapshot.DictOf | data_retrieve.py:40 | `dict(v)`: any result is a plain dict, a mapping is copied with its entries, and a number is not iterable |
| Snapshot.DefaultDictToDict | data_retrieve.py:36-40 | the conversion as written: a successful result is always a plain dict, and a number always fails |
| Snapshot.ToPlainDicts | data_retrieve.py:36-40 | the evidently intended conversion: no defaultdict is returned, a defaultdict becomes a plain dict with the same keys in order, and any other value is kept |
| Snapshot.Iterate | data_retrieve.py:40 | `iter(v)` fails exactly on numbers |
| Snapshot.IndexOfKey | data_retrieve.py:40 | the position of the first entry with the key, or the length when none has it |
| Snapshot.ConvertEntriesFails | data_retrieve.py:39 | one failing value fails the whole comprehension |
| Snapshot.LeafTupleFails | data_retrieve.py:40 | `dict((vector, payload))` raises a ValueError for every vector of floats: at element #0 unless the vector has length 2, and at element #1 (the one-key payload) when it does |
| Snapshot.PlainEntries | data_retrieve.py:39 | same keys in the same order, each value converted |
| Snapshot.ToPlainDictsPreserves | data_retrieve.py:36-40 | the corrected conversion changes no key and no value at any level |
| Snapshot.ToPlainDictsIsPlain | data_retrieve.py:36-40 | on nested defaultdicts the corrected conversion leaves none behind |
| Agent.BuildTable | app/extensions.py:24 | the class table: every key maps to a record of the list carrying that class id |
| Agent.BuildTableExact | app/extensions.py:24 | the table has one key per class id, each maps to a record of the list with that id, and the last record of an id wins |
| Agent.NCLAgent.constructor | app/extensions.py:14-24 | collections are the four facets, and the table is built from the records |
| Agent.NCLAgent.GetCandidateFromText | app/extensions.py:39-52 | the result is the specification union `Candidates` over the four collections |
| Agent.Candidates | app/extensions.py:39-52 | the candidate set: it contains every class id returned by the search of each collection |
| Agent.CandidatesExactly | app/extensions.py:39-52 | an id is a candidate iff some hit of some collection carries it |
| Agent.CandidatesBound | app/extensions.py:39-52 | with at most `limit` hits per collection, there are at most `limit` candidates per collection searched, so at most `4 · limit` for the agent's four collections |
| Agent.HitIdsBound | app/extensions.py:42-51 | a search contributes at most as many ids as hits |
| Agent.CandidatesOrderFree | app/extensions.py:39-52 | the candidate set does not depend on the order of the collections |
| Agent.NCLAgent.AppendTerms | app/extensions.py:68-71 | the loop yields the prefix followed by every term and a comma, in order |
| Agent.NCLAgent.BuildTemplatePerClass | app/extensions.py:63-80 | fails with a KeyError exactly for an id missing from the table; otherwise returns the four template sentences |
| Agent.Template | app/extensions.py:63-80 | the four sentences of one class, the introduction first |
| Agent.TemplateReadBack | app/extensions.py:63-80 | introduction first, then three sentences that each start with their prefix; an empty list leaves the bare prefix, and comma-free terms read back |
| Agent.SentenceReadBack | app/extensions.py:68-79 | a rendered sentence starts with its prefix, and its terms read back |
| Agent.UserMessagesAppend | app/extensions.py:86-103 | wrapping a concatenation equals concatenating the wrapped parts, as the two `extend` calls do |
| Agent.TemplatesSnoc | app/extensions.py:85-91 | visiting one more candidate appends its four sentences |
| Agent.Prompt | app/extensions.py:83-103 | the message list for the given templates: their sentences followed by the four frame sentences, all from the user |
| Agent.PromptShape | app/extensions.py:83-103 | with four sentences per candidate there are `4k+4` messages, all from the user, with the candidate sentences first and then the framing sentence, the description introduction, the description and the closing question |
| Agent.PromptOfCandidates | app/extensions.py:85-103 | for an enumeration of the candidate set there are four messages per candidate plus four, and message `m` of block `j` is sentence `m` of the `j`-th candidate's template |
| Agent.NCLAgent.AssemblePrompt | app/extensions.py:83-103 | succeeds iff every candidate has a record (else a KeyError names a missing one); the messages are the prompt for some duplicate-free enumeration of the candidates |
| Agent.NCLAgent.Infer | app/extensions.py:82-110 | succeeds iff every retrieved candidate has a record; the answer is the chat model's reply to the prompt for some enumeration of the candidates |
| Agent.NCLAgent.Call | app/extensions.py:26-27 | calling the agent gives what `infer` gives for the same limit, 2 by default |

## Left out

- Network and I/O are parameters or absent: the OpenAI embedding and chat
  clients, the Qdrant client (the collection existence check, delete, create
  and upsert are recorded as one `Upload`), JSON loading, logging, `tqdm`,
  `colorama`, `argparse` and `load_dotenv`.
- The pickle file is not modelled, so the model does not show that opening it
  for writing empties it before the failing conversion runs (see
  "## Findings").
- The index vector dimension (3072) and the cosine distance are configuration
  passed to Qdrant. The model does not check vector lengths.
- Floating-point scores and vectors are `real`s. They are only carried, never
  computed on.
- Text.Lower: lower-cases ASCII letters only. Python's `str.lower()` also maps
  non-ASCII letters, and a few of them to several characters.
- Agent.NCLAgent.GetCandidateFromText: the description is embedded again for
  every collection. Because `embed` is a function, the four calls are modelled
  as one value. A service whose embeddings differ between calls is not
  modelled.
- `search_per_collection` and `text_to_embedding` are the `search` and `embed`
  functions. Their parameters (`hnsw_ef=128`, `exact=False`, the embedding
  model name) are left out.
- The XML walk that builds `NiceClass` objects (xml_parse.py:60-131) and the
  export script are not part of this model. So are the web app, `config.py`
  and the server.
- In `toDict` the result shares its lists with the class texts (Python
  aliasing). The model copies the values.
- Python `dict` keys are compared by equality and hash. In the snapshot
  model, `Int` and `Float` keys that compare equal (`1 == 1.0`) are treated as
  different. This does not arise in the index store, whose keys are strings.
- The source spells the exclude list `excludesPerticular`. The model calls it
  `excludesParticular`.

## Findings

| source | as written | input that shows it | evidently intended | confidence | as-written member | corrected member |
|---|---|---|---|---|---|---|
| data_retrieve.py:36-40 | `dict(d)` is applied to every value, including the `(vector, payload)` leaf tuples. For a tuple it means "build a dict from pairs", and it always raises a ValueError. The first item is the vector list. Unless the vector has exactly two numbers, it is not a pair (element #0). A two-number vector is the pair `x: y`, since a float key is hashable. The second item, the one-key payload dict, then iterates to a single element (element #1). `main` catches the exception (data_retrieve.py:184-186). By then `open("data/qdrant.pkl", "wb")` (data_retrieve.py:182) has already created or truncated the file, so it is left empty and any earlier snapshot is lost. | any store holding one item, e.g. `{"introduction": {"x": ([0.1, 0.2, 0.3], {"class_id": 1})}}` | convert each nested defaultdict to a plain dict and keep the leaves as they are | high (not executed) | Snapshot.DefaultDictToDict, shown failing by Snapshot.LeafTupleFails and Indexer.SnapshotAsWrittenFails | Snapshot.ToPlainDicts, proved by Snapshot.ToPlainDictsPreserves, Snapshot.ToPlainDictsIsPlain and Indexer.SnapshotCorrected; used by Indexer.IndexStore.Snapshot |
