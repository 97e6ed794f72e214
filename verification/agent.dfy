/**
 * The classification agent (app/extensions.py): a table of class records,
 * candidate retrieval over four facet collections, rendering of each
 * candidate's record into four prompt sentences, and assembly of the message
 * list sent to the chat model. The embedding service, the vector search and
 * the chat completion are injected as functions.
 */
module Agent {
  import opened Common
  import opened Text

  /** A scored point returned by the vector search, with its payload. */
  datatype Hit = Hit(score: real, payload: Payload)

  /** One chat message `{"role": ..., "content": ...}`. */
  datatype Message = Message(role: string, content: string)

  /** The facet collections, in the order they are searched. */
  const Collections: seq<string> := ["introduction", "heading", "include", "exclude"]

  /** The default `limit_candidate` of `__call__` and `infer`. */
  const DefaultLimit: int := 2

  const FramingSentence: string := "I'm working on NICE classification for the intellectual property"
  const DescriptionIntro: string := "Here is the description of the product"
  const ClosingQuestion: string := "What is the class of this product?"

  // ---------------------------------------------------------------------------
  // The class table.

  /**
   * `{class_item["class_id"]: class_item for class_item in data}`: every key
   * maps to a record of the list that carries that class id.
   */
  function BuildTable(records: seq<ClassRecord>): (r: map<int, ClassRecord>)
    ensures forall id :: id in r ==> r[id].classId == id && r[id] in records
  {
    if records == [] then map[]
    else
      var n := |records| - 1;
      BuildTable(records[..n])[records[n].classId := records[n]]
  }

  /** No record after position `i` has the same class id. */
  predicate LastOfId(records: seq<ClassRecord>, i: nat)
    requires i < |records|
  {
    forall j :: i < j < |records| ==> records[j].classId != records[i].classId
  }

  /**
   * The table has exactly one key per class id of the list; each key maps to a
   * record of the list with that id, and when ids repeat the last record wins.
   */
  lemma {:induction false} BuildTableExact(records: seq<ClassRecord>)
    ensures BuildTable(records).Keys == set r | r in records :: r.classId
    ensures forall id :: id in BuildTable(records) ==>
              BuildTable(records)[id].classId == id && BuildTable(records)[id] in records
    ensures forall i :: 0 <= i < |records| && LastOfId(records, i) ==>
              BuildTable(records)[records[i].classId] == records[i]
  {
    if records != [] {
      var n := |records| - 1;
      var init := records[..n];
      BuildTableExact(init);
      assert records == init + [records[n]];
      forall i | 0 <= i < |records| && LastOfId(records, i)
        ensures BuildTable(records)[records[i].classId] == records[i]
      {
        if i < n {
          assert LastOfId(init, i);
          assert records[n].classId != records[i].classId;
        }
      }
    }
  }

  // ---------------------------------------------------------------------------
  // Candidate retrieval.

  /** The class ids in the payloads of `hits`. */
  function HitIds(hits: seq<Hit>): set<int> {
    set h | h in hits :: h.payload.classId
  }

  lemma {:induction false} HitIdsBound(hits: seq<Hit>)
    ensures |HitIds(hits)| <= |hits|
  {
    if hits != [] {
      var n := |hits| - 1;
      HitIdsBound(hits[..n]);
      assert HitIds(hits) == HitIds(hits[..n]) + {hits[n].payload.classId} by {
        assert hits == hits[..n] + [hits[n]];
      }
    }
  }

  /** The union of the hit ids over `collections`, searched in order: it takes in every id each search returns. */
  function Candidates(collections: seq<string>, query: Vector, limit: int,
                      search: (string, Vector, int) -> seq<Hit>): (r: set<int>)
    ensures forall k :: 0 <= k < |collections| ==> HitIds(search(collections[k], query, limit)) <= r
  {
    if collections == [] then {}
    else
      var n := |collections| - 1;
      Candidates(collections[..n], query, limit, search) + HitIds(search(collections[n], query, limit))
  }

  /** A class id is a candidate exactly when some hit of some collection carries it. */
  lemma {:induction false} CandidatesExactly(collections: seq<string>, query: Vector, limit: int,
                                             search: (string, Vector, int) -> seq<Hit>, id: int)
    ensures id in Candidates(collections, query, limit, search) <==>
            exists c, h :: c in collections && h in search(c, query, limit) && h.payload.classId == id
  {
    if collections != [] {
      var n := |collections| - 1;
      CandidatesExactly(collections[..n], query, limit, search, id);
      assert collections == collections[..n] + [collections[n]];
    }
  }

  /** Searching one more collection adds at most its own hit ids. */
  lemma CandidatesStep(collections: seq<string>, query: Vector, limit: int,
                       search: (string, Vector, int) -> seq<Hit>)
    requires collections != []
    ensures var n := |collections| - 1;
            |Candidates(collections, query, limit, search)| <=
            |Candidates(collections[..n], query, limit, search)| + |HitIds(search(collections[n], query, limit))|
  {
    var n := |collections| - 1;
    var init, last := Candidates(collections[..n], query, limit, search), HitIds(search(collections[n], query, limit));
    assert Candidates(collections, query, limit, search) == init + last;
    assert |init + last| <= |init| + |last|;
  }

  /** With at most `limit` hits per collection, there are at most `limit` candidates per collection. */
  lemma {:induction false} CandidatesBound(collections: seq<string>, query: Vector, limit: int,
                                           search: (string, Vector, int) -> seq<Hit>)
    requires forall c :: c in collections ==> |search(c, query, limit)| <= limit
    ensures |Candidates(collections, query, limit, search)| <= |collections| * limit
  {
    if collections != [] {
      var n := |collections| - 1;
      assert forall c :: c in collections[..n] ==> |search(c, query, limit)| <= limit by {
        forall c | c in collections[..n] ensures c in collections { }
      }
      CandidatesBound(collections[..n], query, limit, search);
      assert |HitIds(search(collections[n], query, limit))| <= limit by {
        HitIdsBound(search(collections[n], query, limit));
        assert collections[n] in collections;
      }
      CandidatesStep(collections, query, limit, search);
      assert |collections| * limit == n * limit + limit;
    }
  }

  /** The candidate set does not depend on the order (or repetition) of the collections searched. */
  lemma CandidatesOrderFree(a: seq<string>, b: seq<string>, query: Vector, limit: int,
                            search: (string, Vector, int) -> seq<Hit>)
    requires Elements(a) == Elements(b)
    ensures Candidates(a, query, limit, search) == Candidates(b, query, limit, search)
  {
    forall id | true
      ensures id in Candidates(a, query, limit, search) <==> id in Candidates(b, query, limit, search)
    {
      CandidatesExactly(a, query, limit, search, id);
      CandidatesExactly(b, query, limit, search, id);
      assert forall c :: c in a <==> c in b by {
        forall c ensures c in a <==> c in b {
          assert c in a <==> c in Elements(a);
          assert c in b <==> c in Elements(b);
        }
      }
    }
  }

  // ---------------------------------------------------------------------------
  // Rendering one class.

  function IncludesPrefix(id: int): string {
    "The class " + IntDecimal(id) + " includes "
  }

  function ParticularIncludesPrefix(id: int): string {
    "The class " + IntDecimal(id) + " includes particulary "
  }

  function ParticularExcludesPrefix(id: int): string {
    "The class " + IntDecimal(id) + " excludes particulary "
  }

  /** The four sentences `build_template_per_class` renders for a class, the introduction first. */
  function Template(id: int, rec: ClassRecord): (r: seq<string>)
    ensures |r| == 4 && r[0] == rec.introduction
  {
    [rec.introduction,
     IncludesPrefix(id) + Suffixed(rec.heading),
     ParticularIncludesPrefix(id) + Suffixed(rec.includes),
     ParticularExcludesPrefix(id) + Suffixed(rec.excludes)]
  }

  /** A rendered sentence starts with its prefix, and the terms after it can be read back. */
  lemma SentenceReadBack(prefix: string, terms: seq<string>)
    ensures var s := prefix + Suffixed(terms);
            s[..|prefix|] == prefix &&
            (terms == [] ==> s == prefix) &&
            (CommaFree(terms) ==> SplitTerms(s[|prefix|..]) == terms)
  {
    var s := prefix + Suffixed(terms);
    assert s[|prefix|..] == Suffixed(terms);
    if CommaFree(terms) {
      SplitSuffixed(terms);
    }
  }

  /**
   * The template has four sentences: the introduction verbatim, then the
   * heading, include and exclude terms each behind their own prefix, from
   * which the terms can be read back when none contains a comma.
   */
  lemma TemplateReadBack(id: int, rec: ClassRecord)
    ensures |Template(id, rec)| == 4
    ensures Template(id, rec)[0] == rec.introduction
    ensures var s, p := Template(id, rec)[1], IncludesPrefix(id);
            s[..|p|] == p && (rec.heading == [] ==> s == p) &&
            (CommaFree(rec.heading) ==> SplitTerms(s[|p|..]) == rec.heading)
    ensures var s, p := Template(id, rec)[2], ParticularIncludesPrefix(id);
            s[..|p|] == p && (rec.includes == [] ==> s == p) &&
            (CommaFree(rec.includes) ==> SplitTerms(s[|p|..]) == rec.includes)
    ensures var s, p := Template(id, rec)[3], ParticularExcludesPrefix(id);
            s[..|p|] == p && (rec.excludes == [] ==> s == p) &&
            (CommaFree(rec.excludes) ==> SplitTerms(s[|p|..]) == rec.excludes)
  {
    SentenceReadBack(IncludesPrefix(id), rec.heading);
    SentenceReadBack(ParticularIncludesPrefix(id), rec.includes);
    SentenceReadBack(ParticularExcludesPrefix(id), rec.excludes);
  }

  // ---------------------------------------------------------------------------
  // The message list.

  /** Each content wrapped as `{"role": "user", "content": ...}`. */
  function UserMessages(contents: seq<string>): seq<Message> {
    seq(|contents|, i requires 0 <= i < |contents| => Message("user", contents[i]))
  }

  /** Every id of `order` has a record in the table. */
  predicate Known(data: map<int, ClassRecord>, order: seq<int>) {
    forall id :: id in order ==> id in data
  }

  /** User messages of a concatenation are the concatenation of the user messages. */
  lemma UserMessagesAppend(a: seq<string>, b: seq<string>)
    ensures UserMessages(a + b) == UserMessages(a) + UserMessages(b)
  {
    var l, r := UserMessages(a + b), UserMessages(a) + UserMessages(b);
    assert |l| == |r|;
    forall i | 0 <= i < |l|
      ensures l[i] == r[i]
    {
      if i < |a| {
        assert (a + b)[i] == a[i];
      } else {
        assert (a + b)[i] == b[i - |a|];
      }
    }
  }

  /** The rendered templates of the candidates, in the order they are visited. */
  function Templates(data: map<int, ClassRecord>, order: seq<int>): seq<seq<string>>
    requires Known(data, order)
  {
    seq(|order|, j requires 0 <= j < |order| => Template(order[j], data[order[j]]))
  }

  /** Visiting one more candidate appends its four sentences. */
  lemma TemplatesSnoc(data: map<int, ClassRecord>, order: seq<int>, id: int)
    requires Known(data, order) && id in data
    ensures Known(data, order + [id])
    ensures Flatten(Templates(data, order + [id])) == Flatten(Templates(data, order)) + Template(id, data[id])
  {
    var ts, ts0, t := Templates(data, order + [id]), Templates(data, order), Template(id, data[id]);
    assert ts == ts0 + [t];
    FlattenSnoc(ts0, t);
  }

  /** The fixed closing sentences, with the description second to last. */
  function FrameSentences(description: string): seq<string> {
    [FramingSentence, DescriptionIntro, description, ClosingQuestion]
  }

  /** The message list `infer` sends: every candidate's sentences in turn, then the frame, all as user messages. */
  function Prompt(templates: seq<seq<string>>, description: string): (r: seq<Message>)
    ensures |r| == |Flatten(templates)| + 4
    ensures forall i :: 0 <= i < |r| ==> r[i].role == "user"
  {
    UserMessages(Flatten(templates) + FrameSentences(description))
  }

  /**
   * With four sentences per candidate, the message list has `4 * k + 4`
   * messages, all from the user: message `m` of block `j` is sentence `m` of
   * the `j`-th template, and the last four are the framing sentence, the
   * description introduction, the description itself and the closing question.
   */
  lemma PromptShape(templates: seq<seq<string>>, description: string)
    requires forall k :: 0 <= k < |templates| ==> |templates[k]| == 4
    ensures |Prompt(templates, description)| == 4 * |templates| + 4
    ensures forall i :: 0 <= i < |Prompt(templates, description)| ==> Prompt(templates, description)[i].role == "user"
    ensures forall j, m :: 0 <= j < |templates| && 0 <= m < 4 ==>
              Prompt(templates, description)[4 * j + m].content == templates[j][m]
    ensures var p, k := Prompt(templates, description), 4 * |templates|;
            p[k].content == FramingSentence && p[k + 1].content == DescriptionIntro &&
            p[k + 2].content == description && p[k + 3].content == ClosingQuestion
  {
    var flat := Flatten(templates);
    var sentences := flat + FrameSentences(description);
    FlattenLength(templates);
    TotalCountUniform(templates, 4, |templates|);
    assert templates[..|templates|] == templates;
    forall j, m | 0 <= j < |templates| && 0 <= m < 4
      ensures sentences[4 * j + m] == templates[j][m]
    {
      TotalCountUniform(templates, 4, j);
      FlattenAt(templates, j, m);
    }
  }

  /**
   * For candidates visited in `order`, message `m` of block `j` is sentence
   * `m` of the `j`-th candidate's template, and for an enumeration of the
   * candidate set there are `4 * |candidates| + 4` messages.
   */
  lemma PromptOfCandidates(data: map<int, ClassRecord>, order: seq<int>, candidates: set<int>, description: string)
    requires IsEnumeration(order, candidates) && Known(data, order)
    ensures |order| == |candidates|
    ensures |Prompt(Templates(data, order), description)| == 4 * |candidates| + 4
    ensures forall j, m :: 0 <= j < |order| && 0 <= m < 4 ==>
              Prompt(Templates(data, order), description)[4 * j + m].content == Template(order[j], data[order[j]])[m]
  {
    EnumerationLength(order, candidates);
    var ts := Templates(data, order);
    assert forall k :: 0 <= k < |ts| ==> ts[k] == Template(order[k], data[order[k]]);
    PromptShape(ts, description);
  }

  // ---------------------------------------------------------------------------
  // The agent.

  class NCLAgent {
    const collections: seq<string>
    const data: map<int, ClassRecord>
    const embed: string -> Vector
    const search: (string, Vector, int) -> seq<Hit>
    const chat: seq<Message> -> string

    /** `NCLAgent(data_path)`, with the loaded record list and the service clients passed in. */
    constructor (records: seq<ClassRecord>, embed: string -> Vector,
                 search: (string, Vector, int) -> seq<Hit>, chat: seq<Message> -> string)
      ensures collections == Collections && data == BuildTable(records)
      ensures this.embed == embed && this.search == search && this.chat == chat
    {
      this.collections := Collections;
      this.data := BuildTable(records);
      this.embed := embed;
      this.search := search;
      this.chat := chat;
    }

    /** `get_candidate_from_text`: the union of the hit ids over all collections. */
    method GetCandidateFromText(text: string, limit: int := DefaultLimit) returns (candidate: set<int>)
      ensures candidate == Candidates(collections, embed(text), limit, search)
    {
      candidate := {};
      var i := 0;
      while i < |collections|
        invariant 0 <= i <= |collections|
        invariant candidate == Candidates(collections[..i], embed(text), limit, search)
      {
        var hits := search(collections[i], embed(text), limit);
        candidate := candidate + set h | h in hits :: h.payload.classId;
        assert collections[..i + 1][..i] == collections[..i];
        i := i + 1;
      }
      assert collections[..i] == collections;
    }

    /** `t = prefix; for term in terms: t = t + term + ","`. */
    static method AppendTerms(prefix: string, terms: seq<string>) returns (t: string)
      ensures t == prefix + Suffixed(terms)
    {
      t := prefix;
      var i := 0;
      while i < |terms|
        invariant 0 <= i <= |terms|
        invariant t == prefix + Suffixed(terms[..i])
      {
        SuffixedSnoc(terms[..i], terms[i]);
        assert terms[..i + 1] == terms[..i] + [terms[i]];
        t := t + terms[i] + ",";
        i := i + 1;
      }
      assert terms[..i] == terms;
    }

    /** `build_template_per_class`: a KeyError for an id missing from the table, else the four sentences. */
    method BuildTemplatePerClass(classId: int) returns (r: Result<seq<string>>)
      ensures r.Ok? <==> classId in data
      ensures r.Err? ==> r.error == UnknownClass(classId)
      ensures r.Ok? ==> r.value == Template(classId, data[classId])
    {
      if classId !in data {
        return Err(UnknownClass(classId));
      }
      var classData := data[classId];
      var messages: seq<string> := [classData.introduction];
      var t := AppendTerms("The class " + IntDecimal(classId) + " includes ", classData.heading);
      messages := messages + [t];
      t := AppendTerms("The class " + IntDecimal(classId) + " includes particulary ", classData.includes);
      messages := messages + [t];
      t := AppendTerms("The class " + IntDecimal(classId) + " excludes particulary ", classData.excludes);
      messages := messages + [t];
      r := Ok(messages);
    }

    /**
     * The message assembly of `infer` over a candidate set, visited in an
     * arbitrary order (`order`) as a Python set is: the first candidate
     * without a record raises KeyError.
     */
    method AssemblePrompt(description: string, candidates: set<int>)
      returns (r: Result<seq<Message>>, ghost order: seq<int>)
      ensures r.Ok? <==> candidates <= data.Keys
      ensures r.Err? ==> r.error.UnknownClass? && r.error.classId in candidates && r.error.classId !in data
      ensures r.Ok? ==> IsEnumeration(order, candidates) && Known(data, order) &&
                        r.value == Prompt(Templates(data, order), description)
    {
      var messages: seq<Message> := [];
      var remaining := candidates;
      order := [];
      while |remaining| > 0
        invariant NoDup(order) && Known(data, order)
        invariant Elements(order) <= candidates && remaining == candidates - Elements(order)
        invariant messages == UserMessages(Flatten(Templates(data, order)))
        decreases remaining
      {
        // Not read: the call only shows the solver that `remaining` has an element for `:|`.
        ghost var some := Member(remaining);
        var candidateId :| candidateId in remaining;
        var template := BuildTemplatePerClass(candidateId);
        if template.Err? {
          return Err(template.error), order;
        }
        UserMessagesAppend(Flatten(Templates(data, order)), template.value);
        TemplatesSnoc(data, order, candidateId);
        VisitStep(order, candidates, remaining, candidateId);
        messages := messages + UserMessages(template.value);
        order := order + [candidateId];
        remaining := remaining - {candidateId};
      }
      UserMessagesAppend(Flatten(Templates(data, order)), FrameSentences(description));
      messages := messages + UserMessages(FrameSentences(description));
      r := Ok(messages);
    }

    /**
     * `infer`: retrieve the candidates, assemble the messages and return the
     * chat model's answer for them, or the KeyError of a candidate without a
     * record.
     */
    method Infer(description: string, limit: int := DefaultLimit) returns (r: Result<string>)
      ensures var cands := Candidates(collections, embed(description), limit, search);
              (r.Ok? <==> cands <= data.Keys) &&
              (r.Err? ==> r.error.UnknownClass? && r.error.classId in cands && r.error.classId !in data) &&
              (r.Ok? ==> exists order :: IsEnumeration(order, cands) && Known(data, order) &&
                                         r.value == chat(Prompt(Templates(data, order), description)))
    {
      var candidates := GetCandidateFromText(description, limit);
      var messages, order := AssemblePrompt(description, candidates);
      if messages.Err? {
        return Err(messages.error);
      }
      r := Ok(chat(messages.value));
    }

    /** `__call__`: the agent called on a description runs `infer` with the same limit, 2 by default. */
    method Call(description: string, limit: int := DefaultLimit) returns (r: Result<string>)
      ensures var cands := Candidates(collections, embed(description), limit, search);
              (r.Ok? <==> cands <= data.Keys) &&
              (r.Err? ==> r.error.UnknownClass? && r.error.classId in cands && r.error.classId !in data) &&
              (r.Ok? ==> exists order :: IsEnumeration(order, cands) && Known(data, order) &&
                                         r.value == chat(Prompt(Templates(data, order), description)))
    {
      r := Infer(description, limit);
    }
  }
}
