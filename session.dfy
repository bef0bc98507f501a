/** The page's session state and the three buttons that act on it: "Add"
    appends the typed topic, "❌" removes a listed topic, and "Generate
    Video" sends the topics to the backend. Each press is one method call;
    the page re-render that follows is not modelled. */
module Session {
  import opened PyText
  import opened Json
  import opened Generation

  /** "Add" is disabled once this many topics are held. */
  const MaxTopics: nat := 1
  /** Only the first three topics are listed, each with a remove button. */
  const ListedTopics: nat := 3

  /** The widget key of the topic text box: `topic_input_<n>`. */
  function InputWidgetKey(n: nat): string
  {
    "topic_input_" + Decimal(n)
  }

  /** Different counters give different text-box keys, so a new counter
      value always gives a fresh, empty text box. */
  lemma InputWidgetKeyInjective(a: nat, b: nat)
    ensures InputWidgetKey(a) == InputWidgetKey(b) ==> a == b
  {
    if InputWidgetKey(a) == InputWidgetKey(b) {
      var p := "topic_input_";
      assert Decimal(a) == InputWidgetKey(a)[|p|..];
      assert Decimal(b) == InputWidgetKey(b)[|p|..];
      DecimalInjective(a, b);
    }
  }

  class TopicSession {
    /** `st.session_state.topics`. */
    var topics: seq<string>
    /** `st.session_state.input_key`. */
    var inputKey: nat
    /** The counter values whose text boxes have been replaced. */
    ghost var retiredKeys: set<nat>

    /** At most one topic, each one non-empty and already stripped, and
        every replaced text box had a smaller counter than the current. */
    ghost predicate Valid()
      reads this
    {
      |topics| <= MaxTopics &&
      (forall i :: 0 <= i < |topics| ==> topics[i] != [] && Strip(topics[i]) == topics[i]) &&
      (forall k :: k in retiredKeys ==> k < inputKey)
    }

    /** The first run of the page in a session. */
    constructor ()
      ensures Valid()
      ensures topics == [] && inputKey == 0 && retiredKeys == {}
    {
      topics := [];
      inputKey := 0;
      retiredKeys := {};
    }

    /** Whether "Add" is greyed out for what the text box holds. */
    predicate AddDisabled(newTopic: string)
      reads this
    {
      |topics| >= MaxTopics || Strip(newTopic) == []
    }

    /** Whether a remove button is shown for index `i`. */
    predicate RemoveOffered(i: nat)
      reads this
    {
      i < |topics| && i < ListedTopics
    }

    /** Whether "Generate Video" is greyed out. */
    predicate GenerateDisabled()
      reads this
    {
      |topics| == 0
    }

    /** A press of "Add" with `newTopic` in the text box. A press on the
        disabled button does nothing; otherwise the stripped text is
        appended and the text box is replaced by a fresh one. */
    method Add(newTopic: string) returns (added: bool)
      requires Valid()
      modifies this
      ensures Valid()
      ensures added <==> old(|topics|) < MaxTopics && Strip(newTopic) != []
      ensures added ==> (topics == old(topics) + [Strip(newTopic)] &&
                         inputKey == old(inputKey) + 1 && retiredKeys == old(retiredKeys) + {old(inputKey)})
      ensures !added ==> topics == old(topics) && inputKey == old(inputKey) && retiredKeys == old(retiredKeys)
      ensures forall k :: k in retiredKeys ==> InputWidgetKey(k) != InputWidgetKey(inputKey)
    {
      added := !AddDisabled(newTopic);
      if added {
        var topic := Strip(newTopic);
        StripIdempotent(newTopic);
        topics := topics + [topic];
        retiredKeys := retiredKeys + {inputKey};
        inputKey := inputKey + 1;
      }
      forall k | k in retiredKeys ensures InputWidgetKey(k) != InputWidgetKey(inputKey) {
        InputWidgetKeyInjective(k, inputKey);
      }
    }

    /** A press of the remove button of index `i`. Only listed topics have
        one; the rest keep their order and the text box is untouched. */
    method Remove(i: nat) returns (removed: bool)
      requires Valid()
      modifies this
      ensures Valid()
      ensures removed <==> i < old(|topics|) && i < ListedTopics
      ensures removed ==> |topics| == old(|topics|) - 1 && topics == old(topics[..i] + topics[i + 1..])
      ensures !removed ==> topics == old(topics)
      ensures inputKey == old(inputKey) && retiredKeys == old(retiredKeys)
    {
      removed := RemoveOffered(i);
      if removed {
        topics := topics[..i] + topics[i + 1..];
      }
    }

    /** A press of "Generate Video" with `mode` selected, where `backend`
        stands for the POST and what it produced. Nothing is sent while the
        list is empty; otherwise the request carries the held topics (one
        stripped, non-empty topic) and the page shows the outcome of what
        came back. */
    method Generate(mode: SourceType, backend: Request -> Reply) returns (sent: Option<Request>, shown: Option<Outcome>)
      requires Valid()
      ensures sent.None? <==> topics == []
      ensures sent.None? ==> shown.None?
      ensures sent.Some? ==>
        var req := sent.value;
        req.path == VideoPath && req.timeoutSeconds == TimeoutSeconds &&
        req.topics == topics && |req.topics| == 1 && req.topics[0] != [] &&
        req.sourceType == WireName(mode) &&
        shown == Some(Attempt(backend(req)))
    {
      if GenerateDisabled() {
        sent, shown := None, None;
      } else {
        var req := BuildRequest(topics, mode);
        sent := Some(req);
        shown := Some(Attempt(backend(req)));
      }
    }
  }
}
