/**
 * The list logic of the past meetings page (app/routes/past-meetings.tsx):
 * loading the signed-in user's meetings, the search filter and the title
 * fallback. The stored user and the Firestore query result are inputs.
 */
module PastMeetings {
  import opened Wrappers
  import opened Strings
  import opened Sequences

  /** The fields of a stored meeting document that the page uses. */
  datatype MeetingData = MeetingData(id: Option<string>, title: Option<string>, summary: Option<string>)

  /** A query result document: its id and its data. */
  datatype Doc = Doc(docId: string, data: MeetingData)

  /** A listed meeting: `{ id: doc.id, ...doc.data() }`. */
  datatype Meeting = Meeting(id: string, title: Option<string>, summary: Option<string>)

  /** How the Firestore query ended: the documents, or an error and its `message`. */
  datatype QueryResult = Docs(docs: seq<Doc>) | QueryFailed(message: Option<string>)

  /** The page state the fetch effect sets. */
  datatype PageState = PageState(meetings: seq<Meeting>, loading: bool, error: Option<string>)

  const UntitledMeeting := "Untitled Meeting"
  const NotLoggedInMessage := "You must be logged in to view past meetings."
  const LoadFailedMessage := "Failed to load past meetings."

  /** The spread: a data field named `id` overrides the document id. */
  function ToMeeting(doc: Doc): (m: Meeting)
    ensures m.id == (if doc.data.id.Some? then doc.data.id.value else doc.docId)
    ensures m.title == doc.data.title && m.summary == doc.data.summary
  {
    Meeting(doc.data.id.GetOr(doc.docId), doc.data.title, doc.data.summary)
  }

  function ToMeetings(docs: seq<Doc>): (r: seq<Meeting>)
    ensures |r| == |docs|
    ensures forall i :: 0 <= i < |docs| ==> r[i] == ToMeeting(docs[i])
  {
    if docs == [] then [] else [ToMeeting(docs[0])] + ToMeetings(docs[1..])
  }

  /**
   * `fetchMeetings`, given the stored user's uid (None when no user is
   * stored) and the query's result. Without a user the error is set and the
   * list emptied; a failed query shows its message, or the fixed text when it
   * has none, and leaves the earlier list; loading always ends.
   */
  function FetchMeetings(prior: seq<Meeting>, user: Option<string>, result: QueryResult): (s: PageState)
    ensures !s.loading
    ensures user.None? ==> s == PageState([], false, Some(NotLoggedInMessage))
    ensures user.Some? && result.Docs? ==> s.error.None? && s.meetings == ToMeetings(result.docs)
    ensures user.Some? && result.QueryFailed? ==>
      && s.meetings == prior
      && s.error == Some(if result.message.Some? && result.message.value != [] then result.message.value
                         else LoadFailedMessage)
  {
    if user.None? then PageState([], false, Some(NotLoggedInMessage))
    else match result
      case Docs(docs) => PageState(ToMeetings(docs), false, None)
      case QueryFailed(message) =>
        PageState(prior, false, Some(if message.Some? && message.value != [] then message.value else LoadFailedMessage))
  }

  /**
   * The search predicate: the lower-cased title or summary contains the
   * lower-cased query. A meeting with neither field never matches, whatever
   * the query.
   */
  predicate Matches(m: Meeting, query: string)
    ensures Matches(m, query) ==> m.title.Some? || m.summary.Some?
  {
    || (m.title.Some? && Contains(Lower(m.title.value), Lower(query)))
    || (m.summary.Some? && Contains(Lower(m.summary.value), Lower(query)))
  }

  /** `filteredMeetings`. */
  function FilterMeetings(meetings: seq<Meeting>, query: string): (r: seq<Meeting>)
    ensures |r| <= |meetings|
    ensures forall i :: 0 <= i < |r| ==> Matches(r[i], query) && r[i] in meetings
  {
    Filter(m => Matches(m, query), meetings)
  }

  /**
   * The filtered list keeps the meetings' order, keeps every occurrence of a
   * matching meeting and drops every other one.
   */
  lemma FilteredIsOrderedSelection(meetings: seq<Meeting>, query: string, m: Meeting)
    ensures IsSubsequence(FilterMeetings(meetings, query), meetings)
    ensures multiset(FilterMeetings(meetings, query))[m] == if Matches(m, query) then multiset(meetings)[m] else 0
  {
    FilterIsSubsequence(m => Matches(m, query), meetings);
    FilterCounts(m => Matches(m, query), meetings, m);
  }

  /** Every string contains the empty string. */
  lemma ContainsEmpty(s: string)
    ensures Contains(s, [])
  {
    assert StartsWith(s, []);
  }

  /**
   * With an empty query a meeting is kept iff it has a title or a summary
   * (an empty one included); a meeting with neither is always dropped.
   */
  lemma EmptyQueryKeepsTitledOrSummarized(m: Meeting)
    ensures Matches(m, "") <==> m.title.Some? || m.summary.Some?
  {
    if m.title.Some? {
      ContainsEmpty(Lower(m.title.value));
    }
    if m.summary.Some? {
      ContainsEmpty(Lower(m.summary.value));
    }
  }

  /** Lower-casing twice is lower-casing once. */
  lemma LowerIdempotent(s: string)
    ensures Lower(Lower(s)) == Lower(s)
  {
  }

  /** The query's case does not matter. */
  lemma QueryCaseIgnored(m: Meeting, query: string)
    ensures Matches(m, query) <==> Matches(m, Lower(query))
  {
    LowerIdempotent(query);
  }

  /** The heading shown for a meeting: its title, or "Untitled Meeting" when it is absent or empty. */
  function DisplayTitle(m: Meeting): (r: string)
    ensures r != []
    ensures m.title.Some? && m.title.value != [] ==> r == m.title.value
    ensures m.title.None? || m.title.value == [] ==> r == UntitledMeeting
  {
    if m.title.Some? && m.title.value != [] then m.title.value else UntitledMeeting
  }
}
