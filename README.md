# CBRE chatbot: response assembly

A Dafny model of the one piece of logic the chatbot's backend writes itself:
how the `/chat` endpoint in `main.py` turns what the vector store returns into
the reply text and the list of sources.

- `generate_response` is a template. An empty context, or the
  no-documents message, gives a fixed fallback reply. Any other context gives
  `"Based on CBRE's information: "`, then the first 500 characters of the
  context, then a closing question.
- `chat` picks one of three branches:
  - the store is missing or holds no entries: the context is the
    no-documents message;
  - the similarity search succeeds: the context is the chunk texts joined by
    a blank line, and each source entry is the first 150 characters of a
    chunk text followed by `"..."`;
  - the search raises: the context is `"No relevant documents found."`.

The model is pure, like the code it follows:

- `text.dfy`, module `PyText`: Python's `s[:n]` and `sep.join(xs)` on
  strings, with lemmas on the join (its length, where each piece lands, when
  it is empty).
- `messages.dfy`, module `Messages`: the fixed texts and limits of the
  endpoint.
- `chat.dfy`, module `ChatService`: `GenerateResponse`, `Source`, `Sources`,
  the branch selection `Retrieve`, the endpoint `Chat`, lemmas on each
  branch, and the proof helpers about the no-documents message.

The vector store is an input. `Store` is either `Missing` (the store failed
to initialise) or `Loaded(count, answer)`. `count` is what the collection
reports. `answer` is what the similarity search for this request would give:
`Hits(texts)` with the chunk texts in the store's order, or `Raises`. Strings
are `seq<char>`, so lengths and slices count code points, as Python's do.

A failing search does not give the fallback reply, unlike an empty store.
`main.py:119-121` sets the context to `"No relevant documents found."`,
which is not the no-documents message, so the reply is the template around
that text (`ChatService.ChatOnSearchError`).

A second consequence of the code, also proved
(`ChatService.ChatOnHitsFallbackIff`): a successful search gives the fallback
reply exactly when it returns no results, or one result whose text is empty
or is the no-documents message itself.

## Model

| member | source | states |
|---|---|---|
| `PyText.Slice` | main.py:49 | `s[:n]` is the prefix of `s` whose length is the smaller of `n` and the length of `s` |
| `PyText.Join` | main.py:116 | the join starts with the first string and ends with the last one |
| `PyText.JoinLength` | main.py:116 | the join's length is the sum of the pieces' lengths plus one separator per gap |
| `PyText.JoinPlacesEach` | main.py:116 | every piece appears in the join, in order, at the offset of all earlier pieces and separators |
| `PyText.JoinAppend` | main.py:116 | joining `xs + ys` is joining `xs`, a separator, then joining `ys` |
| `PyText.JoinEmptyIff` | main.py:116 | with a non-empty separator the join is empty exactly when there are no pieces or one empty piece |
| `ChatService.GenerateResponse` | main.py:46-51 | the reply is the fallback exactly when the context is empty or the no-documents message; otherwise it is the preamble, the prefix of the context of at most 500 characters (all of it when shorter), and the closing question; the whole context appears when it has at most 500 characters; the length is at most preamble + 500 + closing |
| `ChatService.Retrieve` | main.py:108-123 | no store or a count of 0 gives the no-documents context and no sources; a successful search gives the texts joined by a blank line and one `Source` entry per text, in order; a raising search gives `"No relevant documents found."` and no sources; the context is unusable exactly when there is no searchable store or the results are `[]`, `[""]` or the no-documents message alone (branch lemmas: `ChatWithoutDocuments`, `ChatOnHits`, `ChatOnSearchError`) |
| `ChatService.HitsContextUnusableIff` | main.py:116 | the joined results are empty or the no-documents message exactly when the results are `[]`, `[""]` or the no-documents message alone (the test at main.py:48 applied to the context of main.py:116) |
| `ChatService.Chat` | main.py:104-134 | the sources are those `Retrieve` assembled; the reply is the fallback exactly when there is no searchable store or the search found nothing usable, and otherwise starts with the preamble, ends with the closing question and is at most preamble + 500 + closing long (branch lemmas: `ChatWithoutDocuments`, `ChatOnHits`, `ChatOnHitsFallbackIff`, `ChatOnSearchError`, `ChatSourcesShape`) |
| `ChatService.ResponseIgnoresQuery` | main.py:46-51 | two queries with the same context get the same reply |
| `ChatService.Source` | main.py:117 | a source entry ends with `"..."`, is at most 153 characters long, and what precedes the ellipsis is the prefix of the chunk text of at most 150 characters (all of it when shorter) |
| `ChatService.Sources` | main.py:117 | one source entry per result, in result order |
| `ChatService.ChatUsesQueryOnlyThroughSearch` | main.py:104-127 | the query's only use is the similarity search (main.py:115): for a fixed store answer the reply and sources do not depend on it |
| `ChatService.ChatWithoutDocuments` | main.py:108-111 | a missing store or one with no entries gives the fallback reply and no sources (the else branch at main.py:122-123 and the fallback at main.py:48-51) |
| `ChatService.ChatOnHits` | main.py:111-117 | on a successful search the context is the texts joined by a blank line, the sources are the per-text entries, and no results gives the fallback reply and no sources |
| `ChatService.ChatOnHitsFallbackIff` | main.py:116 | on a successful search the reply is the fallback exactly when the results are `[]`, `[""]` or the no-documents message alone (the test at main.py:48) |
| `ChatService.ChatSourcesShape` | main.py:117 | on a successful search each source has at most 153 characters, ends with `"..."`, starts with a prefix of its text, and is the text plus `"..."` when the text has at most 150 characters |
| `ChatService.ChatOnSearchError` | main.py:119-121 | a raising search gives no sources and the reply `preamble + "No relevant documents found." + closing`, which is not the fallback |
| `ChatService.ChatAtMostTopK` | main.py:115-117 | if the store returns at most 3 results, there are at most 3 sources |

## Left out

- `ingest_data.py`: the sample texts and the configuration of the text splitter and of the store. The chunking and persistence are done by library code that is not part of this model.
- The embedding model, `similarity_search` and the collection's `count()`: library calls, abstracted as the `Store` input. `ChatService.ChatAtMostTopK` takes the store's promise to honour `k=3` as a precondition.
- The module-level `vectorstore` singleton and its initialisation: only whether it exists matters here (`Store.Missing`).
- The FastAPI app, CORS, the `/` and `/health` routes, the request and response classes, and the startup banner: web plumbing.
- The timestamp in the reply: a clock read.
- The `HTTPException` raised on unexpected errors (for instance if `count()` itself raises), console logging, and the unused conversation history.
