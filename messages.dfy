/**
 The fixed texts and limits of the chat endpoint, kept apart from the
 functions that use them.
 */
module Messages {

  /** Context used when there is no store or it holds no entries. It equals
      the single literal of the source; it is written as its two sentences
      only so that the verifier can reason about its characters cheaply. */
  const NoDocuments: string := "No documents in database yet." + " Using general knowledge."
  /** Context used when the similarity search raises. */
  const NoResults: string := "No relevant documents found."
  /** Reply returned when there is no usable context. */
  const Fallback: string := "I don't have specific information about that in my database yet. Please make sure you've run 'python ingest_data.py' to load the CBRE documents first."
  /** Fixed text before and after the context in a templated reply. */
  const Preamble: string := "Based on CBRE's information: "
  const Closing: string := "\n\nIs there anything specific you'd like to know more about?"
  /** At most this many characters of context go into a reply. */
  const ContextLimit: nat := 500
  /** At most this many characters of each chunk text go into its source entry. */
  const SourceLimit: nat := 150
  const Ellipsis: string := "..."
  /** Joins chunk texts into the context. */
  const Separator: string := "\n\n"
  /** Number of nearest chunks the endpoint asks the store for. */
  const TopK: nat := 3
}
