/** The conversation-log page: conversations of a timeframe, filtered by
    their normalised sentiment, with a colour, an icon and a label per
    sentiment, and a details dialog. The request is an input. */
module ConversationLogs {
  import opened Common

  datatype Conversation = Conversation(sessionId: string, sentiment: Option<string>, category: string)

  /** `normalizeSentiment`: a missing or empty sentiment is neutral,
      anything else is lower-cased. */
  function NormalizeSentiment(s: Option<string>): (r: string)
    ensures r != []
    ensures forall i :: 0 <= i < |r| ==> !('A' <= r[i] <= 'Z')
  {
    if s.None? || s.value == "" then "neutral" else Lower(s.value)
  }

  /** Normalising a normalised sentiment changes nothing, and a sentiment
      differing only in case normalises the same. */
  lemma NormalizeIdempotent(s: Option<string>)
    ensures NormalizeSentiment(Some(NormalizeSentiment(s))) == NormalizeSentiment(s)
    ensures s.Some? ==> NormalizeSentiment(Some(Upper(s.value))) == NormalizeSentiment(s)
  {
    if s.Some? && s.value != "" {
      LowerIdempotent(s.value);
    }
    if s.Some? {
      var u := Upper(s.value);
      assert forall i :: 0 <= i < |u| ==> LowerChar(u[i]) == LowerChar(s.value[i]);
    }
  }

  const Known: set<string> := {"positive", "neutral", "negative"}

  /** `getSentimentColor`: the colour of the normalised sentiment, the
      neutral one for any sentiment not in the table. */
  function SentimentColor(s: Option<string>): (color: string)
    ensures NormalizeSentiment(s) == "positive" ==> color == "#4CAF50"
    ensures NormalizeSentiment(s) == "negative" ==> color == "#F44336"
    ensures NormalizeSentiment(s) !in {"positive", "negative"} ==> color == "#FFC107"
  {
    var n := NormalizeSentiment(s);
    if n == "positive" then "#4CAF50" else if n == "negative" then "#F44336" else "#FFC107"
  }

  datatype Icon = Happy | Neutral | Sad

  /** `getSentimentIcon`, with the same fallback. */
  function SentimentIcon(s: Option<string>): (icon: Icon)
    ensures NormalizeSentiment(s) == "positive" <==> icon == Happy
    ensures NormalizeSentiment(s) == "negative" <==> icon == Sad
    ensures NormalizeSentiment(s) !in {"positive", "negative"} <==> icon == Neutral
  {
    var n := NormalizeSentiment(s);
    if n == "positive" then Happy else if n == "negative" then Sad else Neutral
  }

  /** A sentiment missing, empty or unknown gets the neutral colour and
      icon, whatever its case. */
  lemma FallbackIsNeutral(s: Option<string>)
    requires s.None? || s.value == "" || Lower(s.value) !in Known
    ensures SentimentColor(s) == SentimentColor(Some("neutral")) && SentimentIcon(s) == Neutral
  {
  }

  /** `filteredConversations`. */
  function Filtered(convs: seq<Conversation>, filter: string): seq<Conversation> {
    if filter == "all" then convs
    else Filter(convs, (c: Conversation) => NormalizeSentiment(c.sentiment) == Lower(filter))
  }

  /** "all" keeps every conversation; any other filter keeps, in order,
      exactly those whose normalised sentiment is the lower-cased filter, so
      a filter with a capital letter matches as its lower case does. */
  lemma FilteredSpec(convs: seq<Conversation>, filter: string)
    ensures filter == "all" ==> Filtered(convs, filter) == convs
    ensures filter != "all" ==>
      (forall c :: c in Filtered(convs, filter) <==> c in convs && NormalizeSentiment(c.sentiment) == Lower(filter))
    ensures filter != "all" && Lower(filter) != "all" ==> Filtered(convs, filter) == Filtered(convs, Lower(filter))
  {
    if filter != "all" && Lower(filter) != "all" {
      LowerIdempotent(filter);
    }
  }

  /** Filtering by sentiment and then the rest of the conversations keeps
      the order: the filter over a concatenation is the concatenation of
      the filters. */
  lemma FilteredKeepsOrder(a: seq<Conversation>, b: seq<Conversation>, filter: string)
    ensures Filtered(a + b, filter) == Filtered(a, filter) + Filtered(b, filter)
  {
    if filter != "all" {
      FilterAppend(a, b, (c: Conversation) => NormalizeSentiment(c.sentiment) == Lower(filter));
    }
  }

  /** The chip label: the normalised sentiment with its first character
      upper-cased. */
  function Label(s: Option<string>): string {
    var n := NormalizeSentiment(s);
    [UpperChar(n[0])] + n[1..]
  }

  /** The label differs from the normalised sentiment only in its first
      character, which is that character upper-cased; lower-casing the
      label gives the normalised sentiment back. */
  lemma LabelSpec(s: Option<string>)
    ensures |Label(s)| == |NormalizeSentiment(s)|
    ensures Label(s)[0] == UpperChar(NormalizeSentiment(s)[0])
    ensures Label(s)[1..] == NormalizeSentiment(s)[1..]
    ensures Lower(Label(s)) == NormalizeSentiment(s)
    ensures Label(None) == "Neutral"
  {
    var n := NormalizeSentiment(s);
    assert !('A' <= n[0] <= 'Z');
    assert forall i :: 1 <= i < |n| ==> !('A' <= n[i] <= 'Z') && LowerChar(n[i]) == n[i];
  }

  // ---------------------------------------------------------------------------
  // The page

  /** The request: `conversations` and `sentiment`, each possibly absent,
      or a failure. */
  datatype Fetch = Fetched(conversations: Option<seq<Conversation>>, sentiment: Option<map<string, int>>) | FetchFailed

  const LoadError := "Failed to load conversation logs. Please try again."

  class ConversationLogsPage {
    var timeframe: string
    var sentimentFilter: string
    var conversations: seq<Conversation>
    var sentiment: map<string, int>
    var loading: bool
    var error: string
    var selectedConv: Option<Conversation>
    var dialogOpen: bool

    constructor()
      ensures timeframe == "today" && sentimentFilter == "all" && conversations == [] && sentiment == map[]
      ensures loading && error == "" && selectedConv.None? && !dialogOpen
    {
      timeframe := "today";
      sentimentFilter := "all";
      conversations := [];
      sentiment := map[];
      loading := true;
      error := "";
      selectedConv := None;
      dialogOpen := false;
    }

    /** `fetchConversations`: the error is cleared first; a response
        replaces the conversations and the counts (empty when absent); a
        failure keeps them and sets the error. */
    method FetchConversations(f: Fetch)
      modifies this
      ensures f.Fetched? ==>
        error == ""
        && conversations == (if f.conversations.Some? then f.conversations.value else [])
        && sentiment == (if f.sentiment.Some? then f.sentiment.value else map[])
      ensures f.FetchFailed? ==>
        error == LoadError && conversations == old(conversations) && sentiment == old(sentiment)
      ensures !loading && timeframe == old(timeframe) && sentimentFilter == old(sentimentFilter)
      ensures selectedConv == old(selectedConv) && dialogOpen == old(dialogOpen)
    {
      loading := true;
      error := "";
      if f.Fetched? {
        conversations := if f.conversations.Some? then f.conversations.value else [];
        sentiment := if f.sentiment.Some? then f.sentiment.value else map[];
      } else {
        error := LoadError;
      }
      loading := false;
    }

    /** `handleViewDetails`: select the conversation and open the dialog. */
    method ViewDetails(c: Conversation)
      modifies this
      ensures selectedConv == Some(c) && dialogOpen
      ensures conversations == old(conversations) && error == old(error) && sentimentFilter == old(sentimentFilter)
      ensures timeframe == old(timeframe) && sentiment == old(sentiment) && loading == old(loading)
    {
      selectedConv := Some(c);
      dialogOpen := true;
    }

    /** `handleCloseDialog`: close the dialog and drop the selection. */
    method CloseDialog()
      modifies this
      ensures selectedConv.None? && !dialogOpen
      ensures conversations == old(conversations) && error == old(error) && sentimentFilter == old(sentimentFilter)
      ensures timeframe == old(timeframe) && sentiment == old(sentiment) && loading == old(loading)
    {
      dialogOpen := false;
      selectedConv := None;
    }
  }
}
