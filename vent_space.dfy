/** The vent page: its records, the validation and display predicates, and
    the page state that the text, submit, timer and snapshot events change. */
module VentSpace {
  import opened Wrappers
  import opened JsText
  import opened RelativeTime

  /** MAX_CHARS: the most code units a vent may have. */
  const MaxChars := 500

  /** The fields stored for a vent. `timestamp` is the server's creation
      time in milliseconds, absent while the server has not resolved it;
      `createdAt` is the client's ISO-8601 clock reading. */
  datatype VentData = VentData(text: JsString, timestamp: Option<int>, createdAt: JsString)

  /** A document of a snapshot: the store's identifier and the stored fields. */
  datatype Doc = Doc(id: JsString, data: VentData)

  /** A feed entry, `{ id: doc.id, ...doc.data() }`. */
  datatype Message = Message(id: JsString, text: JsString, timestamp: Option<int>, createdAt: JsString)

  /** The record handed to the store's append. Its `timestamp` field is the
      server-timestamp placeholder, which the store resolves, so only the
      client-supplied fields are carried here. */
  datatype NewVent = NewVent(text: JsString, createdAt: JsString)

  /** How the awaited append ended. */
  datatype AppendOutcome = Appended | AppendFailed

  // ---- Validation and display predicates ----

  /** The guard of the submit handler: the text does not trim to nothing
      and is at most MaxChars long. */
  predicate Accepts(newMessage: JsString): (ok: bool)
    ensures ok <==> !AllWhitespace(newMessage) && |newMessage| <= MaxChars
    ensures ok ==> 1 <= |Trim(newMessage)| <= MaxChars
  {
    Trim(newMessage) != [] && |newMessage| <= MaxChars
  }

  /** The submit button is enabled (`disabled` is the negation of this). */
  predicate SubmitEnabled(newMessage: JsString, isSubmitting: bool, charCount: int): (enabled: bool)
    ensures enabled <==> !AllWhitespace(newMessage) && !isSubmitting && charCount <= MaxChars
  {
    !(Trim(newMessage) == [] || isSubmitting || charCount > MaxChars)
  }

  /** The character counter turns to the warning colour. The threshold
      `MAX_CHARS * 0.9` is exactly 450 in double precision too. */
  function CounterWarning(charCount: int): (warn: bool)
    ensures warn <==> charCount >= 451
  {
    charCount as real > MaxChars as real * 0.9
  }

  /** While the counter is in step with the text, the button is enabled
      exactly when the submit guard would pass and no append is outstanding;
      so every submit the button lets through passes the guard. */
  lemma SubmitEnabledIff(newMessage: JsString, isSubmitting: bool, charCount: int)
    requires charCount == |newMessage|
    ensures SubmitEnabled(newMessage, isSubmitting, charCount) <==> Accepts(newMessage) && !isSubmitting
  {
  }

  // ---- The feed ----

  /** One snapshot document as a feed entry: its id attached to its fields. */
  function ToMessage(d: Doc): Message {
    Message(d.id, d.data.text, d.data.timestamp, d.data.createdAt)
  }

  /** The stored fields of a feed entry. */
  function DataOf(m: Message): VentData {
    VentData(m.text, m.timestamp, m.createdAt)
  }

  /** `snapshot.docs.map(...)`: one entry per document, in the snapshot's
      order, each with its document's id and fields. */
  function ToMessages(docs: seq<Doc>): (ms: seq<Message>)
    ensures |ms| == |docs|
    ensures forall i :: 0 <= i < |docs| ==> ms[i].id == docs[i].id && DataOf(ms[i]) == docs[i].data
  {
    seq(|docs|, i requires 0 <= i < |docs| => ToMessage(docs[i]))
  }

  /** The entries determine the snapshot they came from: nothing is lost,
      reordered or invented by the mapping. */
  lemma ToMessagesInjective(docs1: seq<Doc>, docs2: seq<Doc>)
    requires ToMessages(docs1) == ToMessages(docs2)
    ensures docs1 == docs2
  {
    var ms := ToMessages(docs1);
    assert forall i :: 0 <= i < |docs1| ==> docs1[i] == Doc(ms[i].id, DataOf(ms[i])) == docs2[i];
  }

  /** The age a timestamp is shown with: an unresolved one shows "Just now". */
  function ShownAge(timestamp: Option<int>, nowMillis: int): nat {
    match timestamp
    case None => 0
    case Some(t) => Age(Classify(ElapsedSeconds(nowMillis, t)))
  }

  /** The order the store's query delivers: newest first, every unresolved
      timestamp (there may be several) ahead of every resolved one. */
  predicate NewestFirst(ms: seq<Message>) {
    forall i, j :: 0 <= i < j < |ms| ==>
      (ms[j].timestamp.None? ==> ms[i].timestamp.None?) &&
      (ms[i].timestamp.Some? && ms[j].timestamp.Some? ==> ms[i].timestamp.value >= ms[j].timestamp.value)
  }

  /** Down a feed delivered newest first, the shown ages never decrease:
      the relative labels agree with the store's order. */
  lemma ShownAgesAlongFeed(ms: seq<Message>, nowMillis: int, i: int, j: int)
    requires NewestFirst(ms) && 0 <= i < j < |ms|
    ensures ShownAge(ms[i].timestamp, nowMillis) <= ShownAge(ms[j].timestamp, nowMillis)
  {
    if ms[i].timestamp.Some? {
      var e1 := ElapsedSeconds(nowMillis, ms[i].timestamp.value);
      var e2 := ElapsedSeconds(nowMillis, ms[j].timestamp.value);
      AgeMonotone(e1, e2);
    }
  }

  // ---- The page state ----

  /** The component's state: the five React state variables, the profanity
      filter it was built with, and how many success-flag clears are
      scheduled and have not fired yet. */
  class VentPage {
    var messages: seq<Message>
    var newMessage: JsString
    var isSubmitting: bool
    var showSuccess: bool
    var charCount: int
    var pendingClears: nat
    const clean: JsString -> JsString

    /** The counter always equals the text's length, which never exceeds
        MaxChars, and a shown success message always has a clear pending. */
    ghost predicate Valid()
      reads this
    {
      charCount == |newMessage| && charCount <= MaxChars &&
      (showSuccess ==> pendingClears > 0)
    }

    /** The first render: empty feed, empty input, nothing in progress. */
    constructor (clean: JsString -> JsString)
      ensures Valid() && this.clean == clean
      ensures messages == [] && newMessage == [] && charCount == 0
      ensures !isSubmitting && !showSuccess && pendingClears == 0
    {
      this.clean := clean;
      messages := [];
      newMessage := [];
      isSubmitting := false;
      showSuccess := false;
      charCount := 0;
      pendingClears := 0;
    }

    /** handleTextChange: a text of at most MaxChars replaces the input and
        sets the counter to its length; a longer one is ignored. */
    method HandleTextChange(text: JsString)
      requires Valid()
      modifies this
      ensures Valid()
      ensures |text| <= MaxChars ==> newMessage == text && charCount == |text|
      ensures |text| > MaxChars ==> newMessage == old(newMessage) && charCount == old(charCount)
      ensures messages == old(messages) && isSubmitting == old(isSubmitting)
      ensures showSuccess == old(showSuccess) && pendingClears == old(pendingClears)
    {
      if |text| <= MaxChars {
        newMessage := text;
        charCount := |text|;
      }
    }

    /** handleSubmit up to the awaited append. A text that trims to nothing
        or is longer than MaxChars is rejected and nothing changes;
        otherwise the in-progress flag is set and the record to append is
        returned, its text the filter's cleaning of the trimmed input. */
    method BeginSubmit(createdAt: JsString) returns (request: Option<NewVent>)
      requires Valid()
      modifies this
      ensures Valid()
      ensures request.Some? <==> Accepts(old(newMessage))
      ensures request.None? ==> unchanged(this)
      ensures request.Some? ==>
        request.value == NewVent(clean(Trim(newMessage)), createdAt) &&
        // what the filter is given: trimmed, non-empty, at most MaxChars
        1 <= |Trim(newMessage)| <= MaxChars &&
        isSubmitting &&
        messages == old(messages) && newMessage == old(newMessage) && charCount == old(charCount) &&
        showSuccess == old(showSuccess) && pendingClears == old(pendingClears)
    {
      var trimmed := Trim(newMessage);
      if trimmed == [] || |newMessage| > MaxChars {
        return None;
      }
      isSubmitting := true;
      var cleaned := clean(trimmed);
      request := Some(NewVent(cleaned, createdAt));
    }

    /** handleSubmit after the append settles. On success the input and
        counter are cleared, the success message shows and its clear is
        scheduled; on failure the input is kept and the success flag is left
        alone. Either way the in-progress flag ends false. */
    method FinishSubmit(outcome: AppendOutcome)
      requires Valid()
      modifies this
      ensures Valid() && !isSubmitting && messages == old(messages)
      ensures outcome == Appended ==>
        newMessage == [] && charCount == 0 && showSuccess && pendingClears == old(pendingClears) + 1
      ensures outcome == AppendFailed ==>
        newMessage == old(newMessage) && charCount == old(charCount) &&
        showSuccess == old(showSuccess) && pendingClears == old(pendingClears)
    {
      if outcome == Appended {
        newMessage := [];
        charCount := 0;
        showSuccess := true;
        pendingClears := pendingClears + 1;
      }
      isSubmitting := false;
    }

    /** A scheduled clear fires: the success message hides, nothing else changes. */
    method TimerFired()
      requires Valid() && pendingClears > 0
      modifies this
      ensures Valid() && !showSuccess && pendingClears == old(pendingClears) - 1
      ensures messages == old(messages) && newMessage == old(newMessage)
      ensures charCount == old(charCount) && isSubmitting == old(isSubmitting)
    {
      showSuccess := false;
      pendingClears := pendingClears - 1;
    }

    /** A snapshot arrives: the feed becomes its documents, in order, and
        nothing else changes. */
    method OnSnapshot(docs: seq<Doc>)
      requires Valid()
      modifies this
      ensures Valid() && messages == ToMessages(docs)
      ensures newMessage == old(newMessage) && charCount == old(charCount)
      ensures isSubmitting == old(isSubmitting) && showSuccess == old(showSuccess)
      ensures pendingClears == old(pendingClears)
    {
      messages := ToMessages(docs);
    }
  }
}
