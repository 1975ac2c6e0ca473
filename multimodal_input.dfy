/**
 * The chat input controller: the text buffer, its copy in local storage, the
 * attachments, the upload queue, and the rotating placeholder. The pure rules
 * (send enable, the Enter-key decision, the upload result mapping, the memo
 * comparators) are functions. The handlers and effects that change the state are
 * methods of `InputController`.
 */
module MultimodalInput {
  import opened Wrappers
  import opened Strings

  /** The placeholder texts, before they are shuffled once at module load. */
  const PlaceholderTexts: seq<string> := [
    "What can I help you solve today?",
    "Search the web for the latest news or trends",
    "Draft an essay, article, or research summary",
    "Analyze data or explain technical concepts clearly",
    "Get real-time answers to current events and news",
    "Write, debug, and optimize your code",
    "Summarize long reports, papers, or transcripts",
    "Generate creative content, from stories to scripts",
    "Compare different viewpoints on a single question",
    "Plan strategies, workflows, or study guides",
    "Ask about science, history, or emerging tech",
    "Break down advanced math or logic problems",
    "Explore step\U{2011}by\U{2011}step reasoning for tough questions",
    "Translate and explain text in multiple languages",
    "Simulate debates, interviews, or brainstorming sessions"
  ]

  const PlaceholderCount: nat := 15

  /** Shown instead of the rotating text once the chat has messages. */
  const ActiveChatPlaceholder := "Ask Anything"

  const BusyNotice := "Please wait for the model to finish its response!"
  const UploadFailedNotice := "Failed to upload file, please try again!"

  /** The tool marker carried by a message sent through web search. */
  const SearchToolMarker := "searchWeb"

  /** The chat status reported by the conversation library. */
  datatype Status = Ready | Submitted | Streaming | Failed

  datatype Attachment = Attachment(url: string, name: string, contentType: string)

  /**
   * How one upload request ends: a successful JSON body, a rejection with the
   * server's `error` field, or an exception (network failure, unreadable body).
   */
  datatype UploadOutcome =
    | Uploaded(url: string, pathname: string, contentType: string)
    | Rejected(error: string)
    | Threw

  /** What the component hands to the conversation library. */
  datatype Dispatch =
    | SubmitRequest(text: string, attachments: seq<Attachment>)
    | AppendMessage(id: string, text: string, attachments: seq<Attachment>, toolCall: string)

  /** A key press as the textarea sees it. */
  datatype KeyPress = KeyPress(key: string, shiftKey: bool, isComposing: bool)

  /** What `handleKeyDown` does with a key press. */
  datatype KeyAction =
    | PassThrough     // the key is left to the textarea
    | Swallow         // the default is prevented and nothing else happens
    | Notify(message: string)
    | SubmitInput

  // ------------------------------------------------------------- uploads

  /** The value `uploadFile` resolves to: the attachment on success, `undefined` otherwise. */
  function UploadResult(o: UploadOutcome): (a: Option<Attachment>)
    ensures a.Some? <==> o.Uploaded?
    ensures a.Some? ==> a.value.url == o.url && a.value.name == o.pathname && a.value.contentType == o.contentType
  {
    match o
    case Uploaded(url, pathname, contentType) => Some(Attachment(url, pathname, contentType))
    case Rejected(_) => None
    case Threw => None
  }

  /** The error notice `uploadFile` raises, if any. */
  function UploadNotice(o: UploadOutcome): (n: Option<string>)
    ensures n.Some? <==> !o.Uploaded?
    ensures o.Rejected? ==> n == Some(o.error)
    ensures o.Threw? ==> n == Some(UploadFailedNotice)
  {
    match o
    case Uploaded(_, _, _) => None
    case Rejected(e) => Some(e)
    case Threw => Some(UploadFailedNotice)
  }

  /** The results of a batch with the `undefined` entries filtered out, in order. */
  function Successful(results: seq<Option<Attachment>>): (r: seq<Attachment>)
    ensures |r| <= |results|
    ensures forall a :: a in r <==> Some(a) in results
  {
    if results == [] then []
    else (if results[0].Some? then [results[0].value] else []) + Successful(results[1..])
  }

  /** The filter distributes over concatenation: order across the batch is kept. */
  lemma {:induction false} SuccessfulAppend(a: seq<Option<Attachment>>, b: seq<Option<Attachment>>)
    ensures Successful(a + b) == Successful(a) + Successful(b)
    decreases |a|
  {
    if a == [] {
      assert a + b == b;
    } else {
      assert (a + b)[0] == a[0];
      assert (a + b)[1..] == a[1..] + b;
      SuccessfulAppend(a[1..], b);
    }
  }

  /** Together with SuccessfulAppend these pin the filter down: failures vanish, successes stay. */
  lemma SuccessfulSingletons(x: Attachment)
    ensures Successful([None]) == [] && Successful([Some(x)]) == [x]
  {
  }

  /** The notices a batch raises, in order. */
  function Notices(outcomes: seq<UploadOutcome>): (ns: seq<string>)
    ensures |ns| <= |outcomes|
  {
    if outcomes == [] then []
    else (match UploadNotice(outcomes[0]) case Some(n) => [n] case None => []) + Notices(outcomes[1..])
  }

  /** The batch results, one per file in selection order (the order `Promise.all` keeps). */
  function Results(outcomes: seq<UploadOutcome>): (rs: seq<Option<Attachment>>)
    ensures |rs| == |outcomes|
    ensures forall i :: 0 <= i < |outcomes| ==> rs[i] == UploadResult(outcomes[i])
  {
    seq(|outcomes|, i requires 0 <= i < |outcomes| => UploadResult(outcomes[i]))
  }

  /** Notices of consecutive parts of a batch follow each other. */
  lemma {:induction false} NoticesAppend(a: seq<UploadOutcome>, b: seq<UploadOutcome>)
    ensures Notices(a + b) == Notices(a) + Notices(b)
    decreases |a|
  {
    if a == [] {
      assert a + b == b;
    } else {
      assert (a + b)[0] == a[0];
      assert (a + b)[1..] == a[1..] + b;
      NoticesAppend(a[1..], b);
    }
  }

  /** Together with NoticesAppend these pin the notices down: a success raises none, a failure its own. */
  lemma NoticesSingletons(url: string, pathname: string, contentType: string, error: string)
    ensures Notices([Uploaded(url, pathname, contentType)]) == []
    ensures Notices([Rejected(error)]) == [error]
    ensures Notices([Threw]) == [UploadFailedNotice]
  {
  }

  /** Every file of a batch ends up as either an attachment or a notice, never both. */
  lemma {:induction false} EachUploadAttachesOrNotifies(outcomes: seq<UploadOutcome>)
    ensures |Successful(Results(outcomes))| + |Notices(outcomes)| == |outcomes|
    decreases |outcomes|
  {
    if outcomes != [] {
      var rs := Results(outcomes);
      assert rs == [rs[0]] + Results(outcomes[1..]);
      SuccessfulAppend([rs[0]], Results(outcomes[1..]));
      EachUploadAttachesOrNotifies(outcomes[1..]);
    }
  }

  /** A batch where one file succeeds and another fails adds only the first one's attachment and raises one notice. */
  lemma OneOfTwoUploadsFails(url: string, path: string, ct: string, err: string)
    ensures Successful(Results([Uploaded(url, path, ct), Rejected(err)])) == [Attachment(url, path, ct)]
    ensures Notices([Uploaded(url, path, ct), Rejected(err)]) == [err]
  {
    var rs := Results([Uploaded(url, path, ct), Rejected(err)]);
    assert rs == [Some(Attachment(url, path, ct)), None];
    assert rs[1..] == [None];
  }

  // ------------------------------------------------------- sending and keys

  /** `PureSendButton`'s `isDisabled`. */
  predicate SendDisabled(input: string, uploadQueue: seq<string>)
    ensures !SendDisabled(input, uploadQueue) <==> input != "" && uploadQueue == []
  {
    |input| == 0 || |uploadQueue| > 0
  }

  /** Enter without Shift, outside an IME composition. */
  predicate IsSubmitKey(k: KeyPress)
    ensures IsSubmitKey(k) ==> k.key == "Enter"
    ensures k.shiftKey || k.isComposing ==> !IsSubmitKey(k)
  {
    k.key == "Enter" && !k.shiftKey && !k.isComposing
  }

  /** `handleKeyDown`, the same in both input forms. */
  function KeyDecision(k: KeyPress, status: Status, input: string): (a: KeyAction)
    ensures a == PassThrough <==> !IsSubmitKey(k)
    ensures a == Notify(BusyNotice) <==> IsSubmitKey(k) && status != Ready
    ensures a == SubmitInput <==> IsSubmitKey(k) && status == Ready && !IsBlank(input)
    ensures a == Swallow <==> IsSubmitKey(k) && status == Ready && IsBlank(input)
  {
    TrimEmptyIffBlank(input);
    if !IsSubmitKey(k) then PassThrough
    else if status != Ready then Notify(BusyNotice)
    else if Trim(input) != "" then SubmitInput
    else Swallow
  }

  /**
   * The Enter key does not look at the upload queue: it submits while an upload is
   * still pending, when the send button is disabled.
   */
  lemma EnterIgnoresUploadQueue(input: string, queue: seq<string>)
    requires !IsBlank(input) && |queue| > 0
    ensures KeyDecision(KeyPress("Enter", false, false), Ready, input) == SubmitInput
    ensures SendDisabled(input, queue)
  {
  }

  /** The send button enables on any non-empty input, where Enter needs non-blank input. */
  lemma ButtonSendsBlankInput()
    ensures !SendDisabled(" ", [])
    ensures KeyDecision(KeyPress("Enter", false, false), Ready, " ") == Swallow
  {
  }

  // ------------------------------------------------------------ placeholders

  /** `(prev + 1) % placeholders.length`. */
  function NextIndex(i: nat, n: nat): (j: nat)
    requires n > 0
    ensures j < n
    ensures i + 1 < n ==> j == i + 1
    ensures i + 1 == n ==> j == 0
  {
    (i + 1) % n
  }

  /** The index after `k` rotations from `i`. */
  function Rotated(i: nat, n: nat, k: nat): nat
    requires n > 0
  {
    if k == 0 then i else NextIndex(Rotated(i, n, k - 1), n)
  }

  lemma {:induction false} RotatedAdd(i: nat, n: nat, a: nat, b: nat)
    requires n > 0
    ensures Rotated(i, n, a + b) == Rotated(Rotated(i, n, a), n, b)
    decreases b
  {
    if b > 0 {
      RotatedAdd(i, n, a, b - 1);
    }
  }

  lemma {:induction false} RotatedBelow(n: nat, r: nat)
    requires r < n
    ensures Rotated(0, n, r) == r
  {
    if r > 0 {
      RotatedBelow(n, r - 1);
    }
  }

  lemma {:induction false} RotatedWhole(n: nat, q: nat)
    requires n > 0
    ensures Rotated(0, n, q * n) == 0
  {
    if q > 0 {
      var m := (q - 1) * n;
      assert q * n == m + n;
      RotatedWhole(n, q - 1);
      RotatedAdd(0, n, m, n);
      RotatedAdd(0, n, n - 1, 1);
      RotatedBelow(n, n - 1);
    }
  }

  /** From the reset index, `k` rotations land on `k mod n`: the texts are visited in a cycle. */
  lemma RotationCycles(n: nat, k: nat)
    requires n > 0
    ensures Rotated(0, n, k) == k % n
  {
    var q, r := k / n, k % n;
    assert k == q * n + r;
    RotatedAdd(0, n, q * n, r);
    RotatedWhole(n, q);
    RotatedBelow(n, r);
  }

  /** A possible outcome of the load-time shuffle: the same texts in some order. */
  ghost predicate IsShuffle(p: seq<string>)
  {
    multiset(p) == multiset(PlaceholderTexts)
  }

  lemma ShuffleLength(p: seq<string>)
    requires IsShuffle(p)
    ensures |p| == PlaceholderCount
  {
    assert |multiset(p)| == |multiset(PlaceholderTexts)|;
  }

  /** The placeholder effect's gate: rotation runs only in an idle, empty, new chat. */
  predicate RotationActive(status: Status, input: string, messageCount: nat)
    ensures status != Ready || input != "" || messageCount > 0 ==> !RotationActive(status, input, messageCount)
  {
    status == Ready && input == "" && messageCount == 0
  }

  /** What the placeholder effect shows when the gate is closed. */
  function GatedPlaceholder(messageCount: nat): (p: string)
    ensures p == "" <==> messageCount == 0
    ensures messageCount > 0 ==> p == ActiveChatPlaceholder
  {
    if messageCount == 0 then "" else ActiveChatPlaceholder
  }

  /** `finalValue = domValue || localStorageInput || ""`. */
  function InitialInput(domValue: string, stored: string): (r: string)
    ensures r == "" <==> domValue == "" && stored == ""
    ensures domValue != "" ==> r == domValue
    ensures domValue == "" ==> r == stored
  {
    if domValue != "" then domValue else stored
  }

  // ------------------------------------------------------- memo comparators

  /** A chat message, compared structurally by `fast-deep-equal`. */
  datatype Message = Message(id: string, role: string, text: string, attachments: seq<Attachment>)

  /** The props of `MultimodalInput` that matter to its comparator, plus two it ignores. */
  datatype InputProps = InputProps(
    chatId: string,
    input: string,
    status: Status,
    attachments: seq<Attachment>,
    messages: seq<Message>,
    selectedVisibilityType: string,
    selectedModelId: string,
    className: string)

  /** The comparator passed to `memo`: true means the render is skipped. */
  function SkipInputRender(prev: InputProps, next: InputProps): (skip: bool)
    ensures skip <==> prev.(chatId := next.chatId, className := next.className) == next
  {
    if prev.input != next.input then false
    else if prev.status != next.status then false
    else if prev.attachments != next.attachments then false
    else if prev.messages != next.messages then false
    else if prev.selectedVisibilityType != next.selectedVisibilityType then false
    else if prev.selectedModelId != next.selectedModelId then false
    else true
  }

  /** A change of chat alone does not re-render the input. */
  lemma ChatIdChangeSkipsRender(p: InputProps, chatId: string)
    ensures SkipInputRender(p, p.(chatId := chatId))
  {
  }

  /** The send button's comparator: only the queue length and the input are compared. */
  function SkipSendRender(prevInput: string, prevQueue: seq<string>, nextInput: string, nextQueue: seq<string>): (skip: bool)
    ensures skip ==> SendDisabled(prevInput, prevQueue) == SendDisabled(nextInput, nextQueue)
  {
    |prevQueue| == |nextQueue| && prevInput == nextInput
  }

  // --------------------------------------------------------------- the class

  /** The input component's state and the handlers and effects that change it. */
  class InputController {
    /** The placeholder list after the load-time shuffle. */
    const placeholders: seq<string>
    var input: string
    /** The `"input"` entry of local storage. */
    var stored: string
    var attachments: seq<Attachment>
    var uploadQueue: seq<string>
    var placeholderIndex: nat
    var displayedPlaceholder: string
    /** Whether the 4-second rotation interval is installed. */
    var rotating: bool
    /** Everything handed to the conversation library, oldest first. */
    var dispatched: seq<Dispatch>
    /** The error notices raised, oldest first. */
    var notices: seq<string>

    /** The placeholder list has its full length and the index points into it. */
    ghost predicate Indexed()
      reads this
    {
      |placeholders| == PlaceholderCount && placeholderIndex < PlaceholderCount
    }

    /** The invariant: an indexable list, and a rotation that runs only over an empty buffer. */
    ghost predicate Valid()
      reads this
    {
      Indexed() && (rotating ==> input == "")
    }

    /**
     * A fresh component; `placeholders` is the order the load-time shuffle chose
     * (any shuffle has the right length, by ShuffleLength) and `stored` is what
     * local storage already held.
     */
    constructor (placeholders: seq<string>, stored: string)
      requires |placeholders| == PlaceholderCount
      ensures Valid()
      ensures this.placeholders == placeholders && this.stored == stored
      ensures input == "" && attachments == [] && uploadQueue == [] && placeholderIndex == 0
      ensures displayedPlaceholder == "" && !rotating && dispatched == [] && notices == []
    {
      this.placeholders := placeholders;
      this.stored := stored;
      input := "";
      attachments := [];
      uploadQueue := [];
      placeholderIndex := 0;
      displayedPlaceholder := "";
      rotating := false;
      dispatched := [];
      notices := [];
    }

    /**
     * The effect that seeds the input from the textarea or local storage, when the
     * textarea exists. `status` and `messageCount` are the props of the render:
     * a changed input re-runs the placeholder effect, whose cleanup stops a running
     * rotation.
     */
    method SeedInput(domValue: Option<string>, status: Status, messageCount: nat)
      requires Valid()
      modifies this`input, this`rotating, this`displayedPlaceholder
      ensures Valid()
      ensures input == if domValue.Some? then InitialInput(domValue.value, stored) else old(input)
      ensures input != old(input) ==>
                && rotating == RotationActive(status, input, messageCount)
                && displayedPlaceholder == (if rotating then old(displayedPlaceholder) else GatedPlaceholder(messageCount))
      ensures input == old(input) ==> rotating == old(rotating) && displayedPlaceholder == old(displayedPlaceholder)
    {
      var before := input;
      if domValue.Some? {
        input := InitialInput(domValue.value, stored);
      }
      if input != before {
        PlaceholderEffect(status, messageCount);
      }
    }

    /**
     * Typing: the input changes, and the effects that depend on it follow: the copy
     * into local storage, and, for a changed input, the placeholder effect.
     */
    method HandleInput(text: string, status: Status, messageCount: nat)
      requires Valid()
      modifies this`input, this`stored, this`rotating, this`displayedPlaceholder
      ensures Valid() && input == text && stored == text
      ensures text != old(input) ==>
                && rotating == RotationActive(status, text, messageCount)
                && displayedPlaceholder == (if rotating then old(displayedPlaceholder) else GatedPlaceholder(messageCount))
      ensures text == old(input) ==> rotating == old(rotating) && displayedPlaceholder == old(displayedPlaceholder)
    {
      var before := input;
      input := text;
      stored := input;
      if input != before {
        PlaceholderEffect(status, messageCount);
      }
    }

    /** The improve-prompt button replaces the input; a changed input re-runs the placeholder effect. */
    method HandleImprovedPrompt(improved: string, status: Status, messageCount: nat)
      requires Valid()
      modifies this`input, this`rotating, this`displayedPlaceholder
      ensures Valid() && input == improved
      ensures improved != old(input) ==>
                && rotating == RotationActive(status, improved, messageCount)
                && displayedPlaceholder == (if rotating then old(displayedPlaceholder) else GatedPlaceholder(messageCount))
      ensures improved == old(input) ==> rotating == old(rotating) && displayedPlaceholder == old(displayedPlaceholder)
    {
      var before := input;
      input := improved;
      if input != before {
        PlaceholderEffect(status, messageCount);
      }
    }

    /** The new-chat effect: an empty message list clears the input, its copy and the rotation. */
    method NewChatReset(messageCount: nat)
      requires Valid()
      modifies this`input, this`stored, this`placeholderIndex, this`displayedPlaceholder
      ensures Valid()
      ensures messageCount == 0 ==> input == "" && stored == "" && placeholderIndex == 0 && displayedPlaceholder == ""
      ensures messageCount != 0 ==> input == old(input) && stored == old(stored)
                                    && placeholderIndex == old(placeholderIndex)
                                    && displayedPlaceholder == old(displayedPlaceholder)
    {
      if messageCount == 0 {
        input := "";
        stored := "";
        placeholderIndex := 0;
        displayedPlaceholder := "";
      }
    }

    /** The placeholder effect: open the rotation gate, or close it and show the fixed text. */
    method PlaceholderEffect(status: Status, messageCount: nat)
      requires Indexed()
      modifies this`rotating, this`displayedPlaceholder
      ensures Valid()
      ensures rotating == RotationActive(status, input, messageCount)
      ensures displayedPlaceholder == if rotating then old(displayedPlaceholder) else GatedPlaceholder(messageCount)
    {
      rotating := status == Ready && input == "" && messageCount == 0;
      if !rotating {
        displayedPlaceholder := if messageCount == 0 then "" else ActiveChatPlaceholder;
      }
    }

    /** The rotation interval fires; the sync effect then shows the new index's text. */
    method OnRotationTick()
      requires Valid()
      modifies this`placeholderIndex, this`displayedPlaceholder
      ensures Valid()
      ensures rotating ==> placeholderIndex == NextIndex(old(placeholderIndex), PlaceholderCount)
                           && displayedPlaceholder == placeholders[placeholderIndex]
      ensures !rotating ==> placeholderIndex == old(placeholderIndex)
                            && displayedPlaceholder == old(displayedPlaceholder)
    {
      if rotating {
        placeholderIndex := (placeholderIndex + 1) % |placeholders|;
        displayedPlaceholder := placeholders[placeholderIndex];
      }
    }

    /**
     * The sync effect, run by any commit in which the index changed; after a reset
     * from a non-zero index it replaces the reset's empty text by the first one.
     */
    method SyncDisplayedPlaceholder()
      requires Valid()
      modifies this`displayedPlaceholder
      ensures Valid() && displayedPlaceholder == placeholders[placeholderIndex]
    {
      displayedPlaceholder := placeholders[placeholderIndex];
    }

    /** The resets that follow a dispatch. */
    method ResetAfterSend()
      requires Valid()
      modifies this`attachments, this`stored, this`placeholderIndex, this`displayedPlaceholder
      ensures Valid()
      ensures attachments == [] && stored == "" && placeholderIndex == 0 && displayedPlaceholder == ""
    {
      attachments := [];
      stored := "";
      placeholderIndex := 0;
      displayedPlaceholder := "";
    }

    /** `submitForm`: hand the current attachments over, then reset. */
    method SubmitForm()
      requires Valid()
      modifies this`dispatched, this`attachments, this`stored, this`placeholderIndex, this`displayedPlaceholder
      ensures Valid()
      ensures dispatched == old(dispatched) + [SubmitRequest(input, old(attachments))]
      ensures attachments == [] && stored == "" && placeholderIndex == 0 && displayedPlaceholder == ""
    {
      dispatched := dispatched + [SubmitRequest(input, attachments)];
      ResetAfterSend();
    }

    /**
     * `handleWebSearch`: nothing when the input is blank. Otherwise it appends one
     * user message with the untrimmed input, the attachments and the search tool
     * marker, then resets. `id` is the generated message id.
     */
    method HandleWebSearch(id: string)
      requires Valid()
      modifies this`dispatched, this`attachments, this`stored, this`placeholderIndex, this`displayedPlaceholder
      ensures Valid()
      ensures IsBlank(input) ==> dispatched == old(dispatched) && attachments == old(attachments)
                                 && stored == old(stored) && placeholderIndex == old(placeholderIndex)
                                 && displayedPlaceholder == old(displayedPlaceholder)
      ensures !IsBlank(input) ==>
                && dispatched == old(dispatched) + [AppendMessage(id, input, old(attachments), SearchToolMarker)]
                && attachments == [] && stored == "" && placeholderIndex == 0 && displayedPlaceholder == ""
    {
      TrimEmptyIffBlank(input);
      var trimmed := Trim(input);
      if trimmed == "" {
        return;
      }
      dispatched := dispatched + [AppendMessage(id, input, attachments, SearchToolMarker)];
      ResetAfterSend();
    }

    /** A key press in the textarea; returns what was done with it. */
    method HandleKeyDown(k: KeyPress, status: Status) returns (action: KeyAction)
      requires Valid()
      modifies this`dispatched, this`attachments, this`stored, this`placeholderIndex, this`displayedPlaceholder, this`notices
      ensures Valid()
      ensures action == KeyDecision(k, status, input)
      ensures action == SubmitInput ==>
                && dispatched == old(dispatched) + [SubmitRequest(input, old(attachments))]
                && attachments == [] && stored == "" && placeholderIndex == 0 && displayedPlaceholder == ""
      ensures action != SubmitInput ==>
                && dispatched == old(dispatched) && attachments == old(attachments)
                && stored == old(stored) && placeholderIndex == old(placeholderIndex)
                && displayedPlaceholder == old(displayedPlaceholder)
      ensures notices == old(notices) + (if action.Notify? then [BusyNotice] else [])
    {
      action := KeyDecision(k, status, input);
      if action == SubmitInput {
        SubmitForm();
      } else if action.Notify? {
        notices := notices + [action.message];
      }
    }

    /** A click on the send button submits only when the button is enabled. */
    method ClickSend()
      requires Valid()
      modifies this`dispatched, this`attachments, this`stored, this`placeholderIndex, this`displayedPlaceholder
      ensures Valid()
      ensures !SendDisabled(input, uploadQueue) ==>
                && dispatched == old(dispatched) + [SubmitRequest(input, old(attachments))]
                && attachments == [] && stored == "" && placeholderIndex == 0 && displayedPlaceholder == ""
      ensures SendDisabled(input, uploadQueue) ==>
                && dispatched == old(dispatched) && attachments == old(attachments)
                && stored == old(stored) && placeholderIndex == old(placeholderIndex)
                && displayedPlaceholder == old(displayedPlaceholder)
    {
      if !(|input| == 0 || |uploadQueue| > 0) {
        SubmitForm();
      }
    }

    /** The first half of `handleFileChange`: the queue shows the chosen names in order. */
    method SelectFiles(names: seq<string>)
      requires Valid()
      modifies this`uploadQueue
      ensures Valid() && uploadQueue == names
    {
      uploadQueue := names;
    }

    /**
     * The second half: the batch has settled with one outcome per file, in selection
     * order. The successful results follow the old attachments, and every failure
     * raises its notice. Notices appear as the requests finish, an order this model
     * does not fix. The queue ends empty.
     */
    method UploadsSettled(outcomes: seq<UploadOutcome>)
      requires Valid()
      modifies this`attachments, this`uploadQueue, this`notices
      ensures Valid()
      ensures attachments == old(attachments) + Successful(Results(outcomes))
      ensures multiset(notices) == multiset(old(notices)) + multiset(Notices(outcomes))
      ensures uploadQueue == []
    {
      notices := notices + Notices(outcomes);
      attachments := attachments + Successful(Results(outcomes));
      uploadQueue := [];
    }
  }

}
