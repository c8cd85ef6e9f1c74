/**
 The response-assembly step of the chat endpoint: how the retrieved chunk
 texts become the context string and the list of sources, and how the reply
 text is templated from the context. The vector store is not modelled; what
 it would answer for a request is an input (see `Store`).
 */
module ChatService {
  import opened PyText
  import opened Messages

  /** What the similarity search gives back for the request: the chunk texts
      of the results, in the store's order, or an exception. */
  datatype SearchAnswer = Hits(texts: seq<string>) | Raises

  /** The vector store as the endpoint sees it: not initialised, or loaded with
      `count` entries and the answer its search would give. */
  datatype Store = Missing | Loaded(count: nat, answer: SearchAnswer)

  /** The two values the endpoint assembles before templating the reply. */
  datatype Retrieved = Retrieved(context: string, sources: seq<string>)

  /** The modelled part of the endpoint's response body. */
  datatype ChatReply = ChatReply(response: string, sources: seq<string>)

  /** The endpoint searches only when the store exists and is not empty. */
  predicate Searchable(store: Store) {
    store.Loaded? && store.count > 0
  }

  /** A context that makes the reply the fallback: empty, or the no-documents
      message. */
  predicate Unusable(context: string) {
    context == "" || context == NoDocuments
  }

  /** `generate_response`: the fallback for an unusable context; otherwise the
      preamble, at most the first `ContextLimit` characters of the context, and
      the closing question. */
  function GenerateResponse(query: string, context: string): (r: string)
    ensures r == Fallback <==> Unusable(context)
    ensures |r| <= |Preamble| + ContextLimit + |Closing|
    ensures !Unusable(context) ==>
      && |Preamble| + |Closing| <= |r|
      && Preamble <= r
      && EndsWith(r, Closing)
      && r[|Preamble|..|r| - |Closing|] <= context
      && |r[|Preamble|..|r| - |Closing|]| == if |context| <= ContextLimit then |context| else ContextLimit
    ensures !Unusable(context) && |context| <= ContextLimit ==> r == Preamble + context + Closing
  {
    if !Unusable(context) then
      var middle := Slice(context, ContextLimit);
      var t := Preamble + middle + Closing;
      assert t[|t| - 1] == Closing[|Closing| - 1] == '?' && Fallback[|Fallback| - 1] == '.';
      assert t[|Preamble|..|t| - |Closing|] == middle;
      t
    else
      Fallback
  }

  /** The source entry for one chunk text: at most its first `SourceLimit`
      characters, then an ellipsis, which is always added. */
  function Source(text: string): (s: string)
    ensures |s| <= SourceLimit + |Ellipsis|
    ensures |s| >= |Ellipsis| && EndsWith(s, Ellipsis)
    ensures s[..|s| - |Ellipsis|] <= text
    ensures |s| - |Ellipsis| == if |text| <= SourceLimit then |text| else SourceLimit
  {
    var kept := Slice(text, SourceLimit);
    assert (kept + Ellipsis)[..|kept|] == kept;
    kept + Ellipsis
  }

  /** One source entry per chunk text, in the same order. */
  function Sources(texts: seq<string>): (r: seq<string>)
    ensures |r| == |texts|
    ensures forall i :: 0 <= i < |r| ==> r[i] == Source(texts[i])
  {
    seq(|texts|, i requires 0 <= i < |texts| => Source(texts[i]))
  }

  /** A successful search whose results leave no usable context: none, one
      empty text, or one text that is the no-documents message itself. */
  predicate NoUsefulHits(texts: seq<string>) {
    texts == [] || texts == [""] || texts == [NoDocuments]
  }

  /** The branch selection in the endpoint: which context and sources it
      assembles for what the store gives back. */
  function Retrieve(store: Store): (r: Retrieved)
    ensures !Searchable(store) ==> r == Retrieved(NoDocuments, [])
    ensures Searchable(store) && store.answer.Raises? ==> r == Retrieved(NoResults, [])
    ensures Searchable(store) && store.answer.Hits? ==>
      && r.context == Join(Separator, store.answer.texts)
      && |r.sources| == |store.answer.texts|
      && forall i :: 0 <= i < |r.sources| ==> r.sources[i] == Source(store.answer.texts[i])
    ensures Unusable(r.context) <==> !Searchable(store) || (store.answer.Hits? && NoUsefulHits(store.answer.texts))
  {
    if !Searchable(store) then Retrieved(NoDocuments, [])
    else match store.answer
      case Hits(texts) =>
        HitsContextUnusableIff(texts);
        Retrieved(Join(Separator, texts), Sources(texts))
      case Raises =>
        assert |NoResults| != |NoDocuments|;
        Retrieved(NoResults, [])
  }

  /** The joined results are an unusable context exactly for the results that
      `NoUsefulHits` names. */
  lemma HitsContextUnusableIff(texts: seq<string>)
    ensures Unusable(Join(Separator, texts)) <==> NoUsefulHits(texts)
  {
    var context := Join(Separator, texts);
    JoinEmptyIff(Separator, texts);
    if |texts| >= 2 {
      SeparatorAfterFirst(Separator, texts);
      var k := |texts[0]|;
      assert context[k] == '\n';
      NoDocumentsIsSingleLine();
      assert context != NoDocuments;
    }
  }

  /** No character of `s` is a line break. */
  predicate SingleLine(s: string) {
    forall i :: 0 <= i < |s| ==> s[i] != '\n'
  }

  /** The no-documents message is a single line. */
  lemma NoDocumentsIsSingleLine()
    ensures SingleLine(NoDocuments)
  {
  }

  /** The modelled part of the chat endpoint: the reply is templated from the
      assembled context, and the sources are passed through. The reply is the
      fallback exactly when there is no searchable store or the search found
      nothing usable. */
  function Chat(query: string, store: Store): (reply: ChatReply)
    ensures reply.sources == Retrieve(store).sources
    ensures reply.response == Fallback
        <==> !Searchable(store) || (store.answer.Hits? && NoUsefulHits(store.answer.texts))
    ensures reply.response != Fallback ==>
      && Preamble <= reply.response
      && EndsWith(reply.response, Closing)
      && |reply.response| <= |Preamble| + ContextLimit + |Closing|
  {
    var retrieved := Retrieve(store);
    ChatReply(GenerateResponse(query, retrieved.context), retrieved.sources)
  }

  /** The reply does not depend on the query text. */
  lemma ResponseIgnoresQuery(q1: string, q2: string, context: string)
    ensures GenerateResponse(q1, context) == GenerateResponse(q2, context)
  {
  }

  /** The endpoint uses the query only to run the similarity search: once the
      store's answer is fixed, the reply and the sources do not depend on it. */
  lemma ChatUsesQueryOnlyThroughSearch(q1: string, q2: string, store: Store)
    ensures Chat(q1, store) == Chat(q2, store)
  {
  }

  /** No store, or an empty one: the fallback and no sources. */
  lemma ChatWithoutDocuments(query: string, store: Store)
    requires !Searchable(store)
    ensures Chat(query, store) == ChatReply(Fallback, [])
  {
  }

  /** A successful search: the context is the chunk texts joined by a blank
      line, in result order, and there is one source entry per result. */
  lemma ChatOnHits(query: string, store: Store, texts: seq<string>)
    requires Searchable(store) && store.answer == Hits(texts)
    ensures Retrieve(store).context == Join(Separator, texts)
    ensures Chat(query, store).response == GenerateResponse(query, Join(Separator, texts))
    ensures Chat(query, store).sources == Sources(texts)
    ensures texts == [] ==> Chat(query, store) == ChatReply(Fallback, [])
  {
  }

  /** On a successful search the reply is the fallback exactly when there were
      no results, or one result whose text is empty or is the no-documents
      message itself. */
  lemma ChatOnHitsFallbackIff(query: string, store: Store, texts: seq<string>)
    requires Searchable(store) && store.answer == Hits(texts)
    ensures Chat(query, store).response == Fallback
        <==> (texts == [] || texts == [""] || texts == [NoDocuments])
  {
    HitsContextUnusableIff(texts);
  }

  /** Every source entry of a successful search is the first `SourceLimit`
      characters of its chunk text (all of it when shorter) followed by an
      ellipsis, so it is at most `SourceLimit + 3` characters long. */
  lemma ChatSourcesShape(query: string, store: Store, texts: seq<string>, i: nat)
    requires Searchable(store) && store.answer == Hits(texts)
    requires i < |texts|
    ensures |Chat(query, store).sources| == |texts|
    ensures var s := Chat(query, store).sources[i];
      && |s| <= SourceLimit + |Ellipsis|
      && EndsWith(s, Ellipsis)
      && s[..|s| - |Ellipsis|] <= texts[i]
      && (|texts[i]| <= SourceLimit ==> s == texts[i] + Ellipsis)
  {
  }

  /** A failing search: no sources, and because the error context is not the
      no-documents message the reply is the template around it, not the
      fallback. */
  lemma ChatOnSearchError(query: string, store: Store)
    requires Searchable(store) && store.answer.Raises?
    ensures Chat(query, store) == ChatReply(Preamble + NoResults + Closing, [])
    ensures Chat(query, store).response != Fallback
  {
  }

  /** If the store keeps its promise of at most `TopK` results, there are at
      most `TopK` sources. */
  lemma ChatAtMostTopK(query: string, store: Store)
    requires store.Loaded? && store.answer.Hits? ==> |store.answer.texts| <= TopK
    ensures |Chat(query, store).sources| <= TopK
  {
  }
}
