/** Local knowledge: scoring, ranking and the top-k retrieval boundary. */
module Knowledge {
  import opened Prelude

  datatype Category = General | Integration | Security | Data

  datatype KnowledgeDocument = KnowledgeDocument(
    documentId: string,
    title: string,
    section: string,
    version: string,
    content: string,
    tags: seq<string>)

  /** The relevance score counts fifths, so 5 stands for 1.0. */
  datatype RetrievedPassage = RetrievedPassage(document: KnowledgeDocument, relevance: nat)

  datatype RetrievalBatch = RetrievalBatch(corpusVersion: string, passages: seq<RetrievedPassage>)

  /** The lower-cased words of three or more letters or digits in a text. */
  type Tokenizer = string -> set<string>

  function Tag(category: Category): string {
    match category
    case General => "general"
    case Integration => "integration"
    case Security => "security"
    case Data => "data"
  }

  // ----- Scoring -----

  function TagsOf(document: KnowledgeDocument): set<string> {
    set tag | tag in document.tags
  }

  function RawScore(tokens: Tokenizer, query: string, category: Category, document: KnowledgeDocument): nat {
    |tokens(query) * (tokens(document.content) + TagsOf(document))|
    + (if Tag(category) in document.tags then 3 else 0)
    + (if "general" in document.tags then 1 else 0)
  }

  function Passage(tokens: Tokenizer, query: string, category: Category, document: KnowledgeDocument): RetrievedPassage {
    var raw := RawScore(tokens, query, category, document);
    RetrievedPassage(document, if raw < 5 then raw else 5)
  }

  /** The passages with a positive score, in corpus order. */
  function Candidates(tokens: Tokenizer, query: string, category: Category, documents: seq<KnowledgeDocument>)
    : seq<RetrievedPassage>
  {
    if documents == [] then []
    else
      var last := documents[|documents| - 1];
      var passage := Passage(tokens, query, category, last);
      Candidates(tokens, query, category, documents[..|documents| - 1])
      + if passage.relevance > 0 then [passage] else []
  }

  lemma {:induction false} CandidatesScore(
    tokens: Tokenizer, query: string, category: Category, documents: seq<KnowledgeDocument>)
    ensures forall p :: p in Candidates(tokens, query, category, documents)
                        <==> p.document in documents && p.relevance > 0
                             && p == Passage(tokens, query, category, p.document)
  {
    if documents != [] {
      var n := |documents| - 1;
      CandidatesScore(tokens, query, category, documents[..n]);
      assert documents == documents[..n] + [documents[n]];
    }
  }

  lemma OneMoreCandidate(tokens: Tokenizer, query: string, category: Category, documents: seq<KnowledgeDocument>, i: nat)
    requires i < |documents|
    ensures var passage := Passage(tokens, query, category, documents[i]);
            Candidates(tokens, query, category, documents[..i + 1])
            == Candidates(tokens, query, category, documents[..i]) + if passage.relevance > 0 then [passage] else []
  {
    assert documents[..i + 1][..i] == documents[..i];
  }

  // ----- Ranking -----

  predicate LexLeq(a: string, b: string) {
    a == [] || (b != [] && (a[0] < b[0] || (a[0] == b[0] && LexLeq(a[1..], b[1..]))))
  }

  lemma {:induction false} LexTotal(a: string, b: string)
    ensures LexLeq(a, b) || LexLeq(b, a)
  {
    if a != [] && b != [] && a[0] == b[0] {
      LexTotal(a[1..], b[1..]);
    }
  }

  lemma {:induction false} LexAntisymmetric(a: string, b: string)
    requires LexLeq(a, b) && LexLeq(b, a)
    ensures a == b
  {
    if a != [] {
      LexAntisymmetric(a[1..], b[1..]);
      assert a == [a[0]] + a[1..] && b == [b[0]] + b[1..];
    }
  }

  lemma {:induction false} LexTransitive(a: string, b: string, c: string)
    requires LexLeq(a, b) && LexLeq(b, c)
    ensures LexLeq(a, c)
  {
    if a != [] && a[0] == b[0] == c[0] {
      LexTransitive(a[1..], b[1..], c[1..]);
    }
  }

  /** The sort key: higher score first, then document id in code-point order. */
  predicate Ranks(a: RetrievedPassage, b: RetrievedPassage) {
    a.relevance > b.relevance
    || (a.relevance == b.relevance && LexLeq(a.document.documentId, b.document.documentId))
  }

  lemma RanksTotal(a: RetrievedPassage, b: RetrievedPassage)
    ensures Ranks(a, b) || Ranks(b, a)
  {
    LexTotal(a.document.documentId, b.document.documentId);
  }

  lemma RanksTransitive(a: RetrievedPassage, b: RetrievedPassage, c: RetrievedPassage)
    requires Ranks(a, b) && Ranks(b, c)
    ensures Ranks(a, c)
  {
    if a.relevance == b.relevance == c.relevance {
      LexTransitive(a.document.documentId, b.document.documentId, c.document.documentId);
    }
  }

  ghost predicate IsRanked(passages: seq<RetrievedPassage>) {
    forall i, j :: 0 <= i < j < |passages| ==> Ranks(passages[i], passages[j])
  }

  function Insert(passage: RetrievedPassage, ranked: seq<RetrievedPassage>): seq<RetrievedPassage> {
    if ranked == [] || Ranks(passage, ranked[0]) then [passage] + ranked
    else [ranked[0]] + Insert(passage, ranked[1..])
  }

  /** The stable sort by rank. */
  function Rank(passages: seq<RetrievedPassage>): seq<RetrievedPassage> {
    if passages == [] then [] else Insert(passages[0], Rank(passages[1..]))
  }

  lemma {:induction false} InsertKeepsOrder(passage: RetrievedPassage, ranked: seq<RetrievedPassage>)
    requires IsRanked(ranked)
    ensures IsRanked(Insert(passage, ranked))
    ensures multiset(Insert(passage, ranked)) == multiset{passage} + multiset(ranked)
  {
    if ranked != [] {
      assert ranked == [ranked[0]] + ranked[1..];
      if Ranks(passage, ranked[0]) {
        forall j | 0 <= j < |ranked| ensures Ranks(passage, ranked[j]) {
          if j > 0 {
            RanksTransitive(passage, ranked[0], ranked[j]);
          }
        }
      } else {
        RanksTotal(passage, ranked[0]);
        InsertKeepsOrder(passage, ranked[1..]);
        var rest := Insert(passage, ranked[1..]);
        forall j | 0 <= j < |rest| ensures Ranks(ranked[0], rest[j]) {
          assert rest[j] in multiset(rest);
          if rest[j] != passage {
            assert rest[j] in ranked[1..];
          }
        }
      }
    }
  }

  lemma {:induction false} RankSorts(passages: seq<RetrievedPassage>)
    ensures IsRanked(Rank(passages))
    ensures multiset(Rank(passages)) == multiset(passages)
  {
    if passages != [] {
      RankSorts(passages[1..]);
      InsertKeepsOrder(passages[0], Rank(passages[1..]));
      assert passages == [passages[0]] + passages[1..];
    }
  }

  /** The passages with this sort key, in their order. */
  function WithKey(passages: seq<RetrievedPassage>, relevance: nat, id: string): seq<RetrievedPassage> {
    if passages == [] then []
    else
      var first := passages[0];
      (if first.relevance == relevance && first.document.documentId == id then [first] else [])
      + WithKey(passages[1..], relevance, id)
  }

  lemma {:induction false} InsertIsStable(passage: RetrievedPassage, ranked: seq<RetrievedPassage>, relevance: nat, id: string)
    ensures WithKey(Insert(passage, ranked), relevance, id) == WithKey([passage] + ranked, relevance, id)
  {
    assert ([passage] + ranked)[1..] == ranked;
    if ranked != [] && !Ranks(passage, ranked[0]) {
      InsertIsStable(passage, ranked[1..], relevance, id);
      assert ([passage] + ranked[1..])[1..] == ranked[1..];
      LexTotal(id, id);
    }
  }

  /** Passages with the same sort key keep their order. */
  lemma {:induction false} RankIsStable(passages: seq<RetrievedPassage>, relevance: nat, id: string)
    ensures WithKey(Rank(passages), relevance, id) == WithKey(passages, relevance, id)
  {
    if passages != [] {
      RankIsStable(passages[1..], relevance, id);
      var rest := Rank(passages[1..]);
      InsertIsStable(passages[0], rest, relevance, id);
      assert ([passages[0]] + rest)[1..] == rest;
    }
  }

  lemma PrefixOutranks(all: seq<RetrievedPassage>, n: nat, p: RetrievedPassage, q: RetrievedPassage)
    requires IsRanked(all) && n <= |all|
    requires p in all[..n] && q in all && q !in all[..n]
    ensures Ranks(p, q)
  {
    var j :| 0 <= j < n && all[..n][j] == p;
    var i :| 0 <= i < |all| && all[i] == q;
    assert forall k :: 0 <= k < n ==> all[..n][k] == all[k] && all[..n][k] in all[..n];
    assert j < n <= i;
  }

  lemma PrefixIsRanked(all: seq<RetrievedPassage>, n: nat)
    requires IsRanked(all) && n <= |all|
    ensures IsRanked(all[..n])
  {
  }

  lemma PositiveOutranksZero(p: RetrievedPassage, q: RetrievedPassage)
    requires p.relevance > 0 && q.relevance == 0
    ensures Ranks(p, q)
  {
  }

  /** What a slice with only an upper bound keeps; a negative bound counts from the end. */
  function UpTo<T>(s: seq<T>, bound: int): seq<T> {
    if bound >= |s| then s
    else if bound >= 0 then s[..bound]
    else if |s| + bound >= 0 then s[..|s| + bound]
    else []
  }

  // ----- Retrieval -----

  datatype LocalKnowledgeRetriever = LocalKnowledgeRetriever(
    documents: seq<KnowledgeDocument>,
    corpusVersion: string,
    topK: int,
    tokens: Tokenizer)
  {
    function Retrieved(query: string, category: Category): RetrievalBatch {
      RetrievalBatch(corpusVersion, UpTo(Rank(Candidates(tokens, query, category, documents)), topK))
    }

    method Retrieve(query: string, category: Category) returns (batch: RetrievalBatch)
      ensures batch == Retrieved(query, category)
    {
      assert Candidates(tokens, query, category, documents[..0]) == [];
      hide Candidates, Passage, Rank;
      var ranked: seq<RetrievedPassage> := [];
      for i := 0 to |documents|
        invariant ranked == Candidates(tokens, query, category, documents[..i])
      {
        OneMoreCandidate(tokens, query, category, documents, i);
        var passage := Passage(tokens, query, category, documents[i]);
        if passage.relevance > 0 {
          ranked := ranked + [passage];
        }
      }
      assert documents[..|documents|] == documents;
      ranked := Rank(ranked);
      batch := RetrievalBatch(corpusVersion, UpTo(ranked, topK));
    }

    /** The passage a query makes of a document. */
    function PassageOf(query: string, category: Category, document: KnowledgeDocument): RetrievedPassage {
      Passage(tokens, query, category, document)
    }

    /** The result is the ranked top: in order, only positive scores, and nothing left out outranks what is returned. */
    lemma RetrievesTheTop(query: string, category: Category)
      ensures var r := Retrieved(query, category).passages;
              && IsRanked(r)
              && (forall p :: p in r ==> p.document in documents && p.relevance > 0
                                         && p == PassageOf(query, category, p.document))
              && (forall p, d :: p in r && d in documents && PassageOf(query, category, d) !in r
                                 ==> Ranks(p, PassageOf(query, category, d)))
    {
      hide Rank, Candidates, IsRanked, Ranks, RawScore;
      var candidates := Candidates(tokens, query, category, documents);
      var all := Rank(candidates);
      CandidatesScore(tokens, query, category, documents);
      RankSorts(candidates);
      var r := UpTo(all, topK);
      assert r == all[..|r|];
      PrefixIsRanked(all, |r|);
      forall p | p in r ensures p in candidates {
        assert p in all && p in multiset(all);
      }
      forall p, d | p in r && d in documents && PassageOf(query, category, d) !in r
        ensures Ranks(p, PassageOf(query, category, d))
      {
        var q := PassageOf(query, category, d);
        if q.relevance > 0 {
          assert q in candidates && q in multiset(all);
          PrefixOutranks(all, |r|, p, q);
        } else {
          PositiveOutranksZero(p, q);
        }
      }
    }

    /** The result is as long as the bound and the scoring documents allow; a negative bound drops that many. */
    lemma RetrievesAsManyAsAsked(query: string, category: Category)
      ensures var n, m := |Candidates(tokens, query, category, documents)|, |Retrieved(query, category).passages|;
              && (topK >= 0 ==> m == if topK < n then topK else n)
              && (topK < 0 ==> m == if n + topK > 0 then n + topK else 0)
    {
      RankSorts(Candidates(tokens, query, category, documents));
      assert |multiset(Rank(Candidates(tokens, query, category, documents)))|
             == |multiset(Candidates(tokens, query, category, documents))|;
    }
  }

  // ----- What a score counts -----

  /** The words of the query that the document has in its text or among its tags. */
  function Shared(tokens: Tokenizer, query: string, d: KnowledgeDocument): set<string> {
    set word | word in tokens(query) && (word in tokens(d.content) || word in d.tags)
  }

  /** Three fifths for the tag of the category, one for the general tag. */
  function Bonus(category: Category, d: KnowledgeDocument): nat {
    match (Tag(category) in d.tags, "general" in d.tags)
    case (true, true) => 4
    case (true, false) => 3
    case (false, true) => 1
    case (false, false) => 0
  }

  /** A fifth for every shared word, the bonus, and five at most. */
  function Fifths(tokens: Tokenizer, query: string, category: Category, d: KnowledgeDocument): nat {
    var n := |Shared(tokens, query, d)| + Bonus(category, d);
    if n > 5 then 5 else n
  }

  lemma PassageCountsFifths(retriever: LocalKnowledgeRetriever, query: string, category: Category, d: KnowledgeDocument)
    ensures retriever.PassageOf(query, category, d)
            == RetrievedPassage(d, Fifths(retriever.tokens, query, category, d))
  {
    var tokens := retriever.tokens;
    assert tokens(query) * (tokens(d.content) + TagsOf(d)) == Shared(tokens, query, d);
  }

  /** Every returned passage has the score of its shared words and tags; and when the bound leaves room for all, the
      documents returned are exactly those that share a word with the query or carry a bonus tag. */
  lemma ScoresCountSharedWords(retriever: LocalKnowledgeRetriever, query: string, category: Category)
    ensures retriever.Retrieved(query, category).corpusVersion == retriever.corpusVersion
    ensures var r := retriever.Retrieved(query, category).passages;
            && (forall p :: p in r ==> p.relevance == Fifths(retriever.tokens, query, category, p.document))
            && (retriever.topK >= |retriever.documents| ==>
                  forall d :: d in retriever.documents ==>
                    (RetrievedPassage(d, Fifths(retriever.tokens, query, category, d)) in r
                     <==> Shared(retriever.tokens, query, d) != {} || Tag(category) in d.tags || "general" in d.tags))
  {
    hide Candidates, Rank, IsRanked, Passage;
    var r := retriever.Retrieved(query, category).passages;
    var candidates := Candidates(retriever.tokens, query, category, retriever.documents);
    retriever.RetrievesTheTop(query, category);
    forall p | p in r ensures p.relevance == Fifths(retriever.tokens, query, category, p.document) {
      PassageCountsFifths(retriever, query, category, p.document);
    }
    if retriever.topK >= |retriever.documents| {
      CandidatesAreFew(retriever.tokens, query, category, retriever.documents);
      RankSorts(candidates);
      SameLength(Rank(candidates), candidates);
      assert r == Rank(candidates);
      forall d | d in retriever.documents
        ensures RetrievedPassage(d, Fifths(retriever.tokens, query, category, d)) in r
                <==> Fifths(retriever.tokens, query, category, d) > 0
      {
        PassageCountsFifths(retriever, query, category, d);
        CandidatesScore(retriever.tokens, query, category, retriever.documents);
        var p := retriever.PassageOf(query, category, d);
        assert p in multiset(r) <==> p in multiset(candidates);
      }
    }
  }

  lemma SameLength(a: seq<RetrievedPassage>, b: seq<RetrievedPassage>)
    requires multiset(a) == multiset(b)
    ensures |a| == |b|
  {
    assert |multiset(a)| == |a| && |multiset(b)| == |b|;
  }

  lemma {:induction false} CandidatesAreFew(
    tokens: Tokenizer, query: string, category: Category, documents: seq<KnowledgeDocument>)
    ensures |Candidates(tokens, query, category, documents)| <= |documents|
  {
    if documents != [] {
      CandidatesAreFew(tokens, query, category, documents[..|documents| - 1]);
    }
  }

  /** Of two documents with equal bonus, the one that shares more words is never left out for the other and comes
      first, as long as the cap does not level them. */
  lemma SharingMoreComesFirst(
    retriever: LocalKnowledgeRetriever, query: string, category: Category, p: RetrievedPassage, d: KnowledgeDocument)
    requires p in retriever.Retrieved(query, category).passages && d in retriever.documents
    requires Bonus(category, d) == Bonus(category, p.document)
    requires |Shared(retriever.tokens, query, d)| > |Shared(retriever.tokens, query, p.document)|
    requires p.relevance < 5
    ensures var r := retriever.Retrieved(query, category).passages;
            exists i, j :: 0 <= i < j < |r| && r[i].document == d && r[j] == p
  {
    hide Candidates, Rank, Passage;
    var r := retriever.Retrieved(query, category).passages;
    retriever.RetrievesTheTop(query, category);
    var q := retriever.PassageOf(query, category, d);
    PassageCountsFifths(retriever, query, category, d);
    PassageCountsFifths(retriever, query, category, p.document);
    assert !Ranks(p, q);
    var i :| 0 <= i < |r| && r[i] == q;
    var j :| 0 <= j < |r| && r[j] == p;
    assert j < i ==> Ranks(r[j], r[i]);
  }

  // ----- Independence of corpus order -----

  ghost predicate DistinctIds(documents: seq<KnowledgeDocument>) {
    forall i, j :: 0 <= i < j < |documents| ==> documents[i].documentId != documents[j].documentId
  }

  /** Ranked, and no element twice. */
  ghost predicate StrictlyRanked(passages: seq<RetrievedPassage>) {
    IsRanked(passages) && NoRepeats(passages)
  }

  ghost predicate IdentifiedById(passages: seq<RetrievedPassage>) {
    forall p, q :: p in passages && q in passages && p.document.documentId == q.document.documentId ==> p == q
  }

  lemma FirstsAgree(a: seq<RetrievedPassage>, b: seq<RetrievedPassage>)
    requires StrictlyRanked(a) && StrictlyRanked(b) && a != [] && b != []
    requires a[0] in b && b[0] in a && IdentifiedById(a)
    ensures a[0] == b[0]
  {
    var i :| 0 <= i < |b| && b[i] == a[0];
    var j :| 0 <= j < |a| && a[j] == b[0];
    if i > 0 {
      assert Ranks(b[0], a[0]) && Ranks(a[0], b[0]);
      LexAntisymmetric(a[0].document.documentId, b[0].document.documentId);
    }
  }

  lemma TailHasTheRest(a: seq<RetrievedPassage>, p: RetrievedPassage)
    requires NoRepeats(a) && a != []
    ensures p in a[1..] <==> p in a && p != a[0]
  {
    assert a == [a[0]] + a[1..];
    assert forall i :: 0 <= i < |a[1..]| ==> a[1..][i] == a[i + 1];
  }

  lemma EmptyTogether(a: seq<RetrievedPassage>, b: seq<RetrievedPassage>)
    requires forall p :: p in a <==> p in b
    ensures a == [] <==> b == []
  {
    assert a != [] ==> a[0] in a && a[0] in b;
    assert b != [] ==> b[0] in b && b[0] in a;
  }

  lemma {:induction false} StrictRankingIsUnique(a: seq<RetrievedPassage>, b: seq<RetrievedPassage>)
    requires StrictlyRanked(a) && StrictlyRanked(b)
    requires forall p :: p in a <==> p in b
    requires IdentifiedById(a)
    ensures a == b
  {
    EmptyTogether(a, b);
    if a != [] {
      assert a[0] in b && b[0] in a;
      FirstsAgree(a, b);
      forall p ensures (p in a[1..] <==> p in b[1..]) && (p in a[1..] ==> p in a) {
        TailHasTheRest(a, p);
        TailHasTheRest(b, p);
      }
      TailsStayRanked(a);
      TailsStayRanked(b);
      assert IdentifiedById(a[1..]);
      StrictRankingIsUnique(a[1..], b[1..]);
      assert a == [a[0]] + a[1..] && b == [b[0]] + b[1..];
    }
  }

  lemma TailsStayRanked(a: seq<RetrievedPassage>)
    requires StrictlyRanked(a) && a != []
    ensures StrictlyRanked(a[1..])
  {
    assert forall i :: 0 <= i < |a[1..]| ==> a[1..][i] == a[i + 1];
  }

  /** A sequence has no repetitions exactly when its multiset has every element at most once. */
  lemma {:induction false} NoRepeatsCounted<T>(s: seq<T>)
    ensures NoRepeats(s) <==> forall x :: multiset(s)[x] <= 1
  {
    if s != [] {
      var n := |s| - 1;
      var init, last := s[..n], s[n];
      NoRepeatsCounted(init);
      assert s == init + [last];
      assert last in init <==> last in multiset(init);
      assert multiset(s)[last] == multiset(init)[last] + 1;
      assert forall x :: multiset(s)[x] >= multiset(init)[x];
      assert forall x :: x != last ==> multiset(s)[x] == multiset(init)[x];
      if last in init {
        var i :| 0 <= i < n && init[i] == last;
        assert s[i] == s[n];
      } else {
        assert forall i :: 0 <= i < n ==> s[i] == init[i];
        assert NoRepeats(s) <==> NoRepeats(init);
      }
    }
  }

  lemma DistinctIdsSurvivePermutation(a: seq<KnowledgeDocument>, b: seq<KnowledgeDocument>)
    requires multiset(a) == multiset(b) && DistinctIds(a)
    ensures DistinctIds(b)
  {
    NoRepeatsCounted(a);
    NoRepeatsCounted(b);
    forall i, j | 0 <= i < j < |b| ensures b[i].documentId != b[j].documentId {
      assert b[i] in multiset(b) && b[j] in multiset(b);
      assert b[i] in a && b[j] in a;
      assert b[i] != b[j];
    }
  }

  lemma {:induction false} CandidatesDiffer(
    tokens: Tokenizer, query: string, category: Category, documents: seq<KnowledgeDocument>)
    requires DistinctIds(documents)
    ensures NoRepeats(Candidates(tokens, query, category, documents))
  {
    if documents != [] {
      var n := |documents| - 1;
      CandidatesDiffer(tokens, query, category, documents[..n]);
      CandidatesScore(tokens, query, category, documents[..n]);
      var c := Candidates(tokens, query, category, documents[..n]);
      forall i | 0 <= i < |c| ensures c[i].document != documents[n] {
        assert c[i] in c;
      }
    }
  }

  lemma RankedCandidates(tokens: Tokenizer, query: string, category: Category, documents: seq<KnowledgeDocument>)
    requires DistinctIds(documents)
    ensures var r := Rank(Candidates(tokens, query, category, documents));
            && StrictlyRanked(r) && IdentifiedById(r)
            && forall p :: p in r <==> p in Candidates(tokens, query, category, documents)
  {
    var c := Candidates(tokens, query, category, documents);
    var r := Rank(c);
    RankSorts(c);
    CandidatesScore(tokens, query, category, documents);
    CandidatesDiffer(tokens, query, category, documents);
    NoRepeatsCounted(c);
    NoRepeatsCounted(r);
    forall p ensures p in r <==> p in c {
      assert p in multiset(r) <==> p in multiset(c);
    }
    forall p, q | p in r && q in r && p.document.documentId == q.document.documentId ensures p == q {
      assert p.document in documents && q.document in documents;
    }
  }

  /** With distinct ids the result depends on the corpus as a collection, not on its order. */
  lemma RetrievalIgnoresCorpusOrder(
    retriever: LocalKnowledgeRetriever, shuffled: seq<KnowledgeDocument>, query: string, category: Category)
    requires DistinctIds(retriever.documents)
    requires multiset(shuffled) == multiset(retriever.documents)
    ensures retriever.(documents := shuffled).Retrieved(query, category) == retriever.Retrieved(query, category)
  {
    DistinctIdsSurvivePermutation(retriever.documents, shuffled);
    RankedCandidates(retriever.tokens, query, category, retriever.documents);
    RankedCandidates(retriever.tokens, query, category, shuffled);
    CandidatesScore(retriever.tokens, query, category, retriever.documents);
    CandidatesScore(retriever.tokens, query, category, shuffled);
    forall d ensures d in shuffled <==> d in retriever.documents {
      assert d in multiset(shuffled) <==> d in multiset(retriever.documents);
    }
    StrictRankingIsUnique(
      Rank(Candidates(retriever.tokens, query, category, retriever.documents)),
      Rank(Candidates(retriever.tokens, query, category, shuffled)));
  }
}
