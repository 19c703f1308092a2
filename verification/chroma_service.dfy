/** The conversation memory: an append-only collection of tagged documents.
    Similarity search and the text splitter are the vector store's own and are
    oracles here; the clock readings that stamp documents are parameters. */
module ChromaService {
  import opened Text

  /** The `type` metadata of a stored document. */
  datatype DocKind = UserInput | AssistantResponse {
    function Tag(): (t: string)
      ensures t == "user_input" <==> this == UserInput
      ensures t == "assistant_response" <==> this == AssistantResponse
    {
      match this
      case UserInput => "user_input"
      case AssistantResponse => "assistant_response"
    }
  }

  /** A stored document: its text and its metadata (kind and ISO timestamp). */
  datatype Document = Document(pageContent: string, kind: DocKind, timestamp: string)

  /** What a similarity search hands back: the documents, best match first, or
      an exception. */
  datatype SearchOutcome = Retrieved(docs: seq<Document>) | SearchFailed

  /** Which step of storing an exchange raises, if any. */
  datatype StoreFault =
    | NoFault
    | SplitFault    // splitting the documents into chunks raises
    | AddFault      // adding the chunks to the collection raises
    | PersistFault  // persisting raises once the chunks are added

  const NoContextFound := "No context found"
  const DefaultNumDocs := 5

  /** The two documents an exchange becomes before splitting: the user's text,
      then the answer. */
  function ExchangeDocuments(userInput: string, response: string, userStamp: string, replyStamp: string): (r: seq<Document>)
    ensures |r| == 2 && PageContents(r) == [userInput, response]
    ensures r[0].kind.Tag() == "user_input" && r[1].kind.Tag() == "assistant_response"
    ensures r[0].timestamp == userStamp && r[1].timestamp == replyStamp
  {
    [Document(userInput, UserInput, userStamp), Document(response, AssistantResponse, replyStamp)]
  }

  function PageContents(docs: seq<Document>): (r: seq<string>)
    ensures |r| == |docs| && forall i :: 0 <= i < |docs| ==> r[i] == docs[i].pageContent
  {
    seq(|docs|, i requires 0 <= i < |docs| => docs[i].pageContent)
  }

  predicate SingleLine(s: string) {
    '\n' !in s
  }

  class ContextStore {
    /** Every chunk ever added, in the order added. */
    var documents: seq<Document>
    /** The text splitter: documents to chunks. */
    const split: seq<Document> -> seq<Document>
    /** The similarity search: stored documents, query and `k` to the top `k`. */
    const search: (seq<Document>, string, nat) -> SearchOutcome

    constructor (split: seq<Document> -> seq<Document>, search: (seq<Document>, string, nat) -> SearchOutcome)
      ensures documents == [] && this.split == split && this.search == search
    {
      documents := [];
      this.split := split;
      this.search := search;
    }

    /** Stores a question and its answer. Nothing is updated or removed, and no
        exception escapes: a fault in splitting or adding leaves the store as it
        was, one in persisting leaves the chunks added. */
    method StoreConversation(userInput: string, response: string, userStamp: string, replyStamp: string, fault: StoreFault)
      modifies this
      ensures old(documents) <= documents
      ensures documents == old(documents) +
        if fault == NoFault || fault == PersistFault
        then split(ExchangeDocuments(userInput, response, userStamp, replyStamp)) else []
    {
      var docs := ExchangeDocuments(userInput, response, userStamp, replyStamp);
      if fault == SplitFault {
        return;
      }
      var chunks := split(docs);
      if fault == AddFault {
        return;
      }
      documents := documents + chunks;
    }

    /** The context text for `query`, from the top `numDocs` matches: their
        contents joined by newlines, the "No context found" sentinel when there
        is no match, and the empty string when the search raises. Read line by
        line, the joined text gives the lines of each match in turn. */
    function RetrieveContext(query: string, numDocs: nat := DefaultNumDocs): (r: string)
      reads this
      ensures search(documents, query, numDocs) == SearchFailed ==> r == ""
      ensures search(documents, query, numDocs) == Retrieved([]) ==> r == NoContextFound
      ensures match search(documents, query, numDocs)
        case Retrieved(docs) =>
          && (docs != [] ==> Split(r, '\n') == SplitEach(PageContents(docs), '\n'))
          && (docs != [] && (forall i :: 0 <= i < |docs| ==> SingleLine(docs[i].pageContent))
              ==> Split(r, '\n') == PageContents(docs))
        case SearchFailed => true
    {
      match search(documents, query, numDocs)
      case SearchFailed => ""
      case Retrieved(docs) =>
        if docs == [] then NoContextFound
        else
          var pages := PageContents(docs);
          SplitJoinEach(pages, '\n');
          if forall i :: 0 <= i < |pages| ==> SingleLine(pages[i]) then
            SplitJoin(pages, '\n');
            Join(pages, "\n")
          else Join(pages, "\n")
    }
  }
}
