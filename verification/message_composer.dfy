/**
 * The post composer of one's own channel: a text box, a post-type selector,
 * a URL box for links and an expand toggle, with the submit guard, the
 * arguments handed to the channel, and the reset after a post.
 */
module MessageComposer {
  import opened Wrappers
  import opened Text

  /** The post types the selector offers, in button order. */
  const MessageTypes: seq<string> := ["text", "idea", "link", "photo"]

  datatype State = State(content: string, kind: string, url: string, expanded: bool)

  const Initial: State := State("", "text", "", false)

  /** The selected type is one the selector offers. */
  predicate ValidKind(s: State) {
    s.kind in MessageTypes
  }

  /** The arguments of one `onSendMessage` call: content, type, and the URL or null. */
  datatype Send = Send(content: string, kind: string, url: Option<string>)

  datatype Outcome = Outcome(state: State, sent: Option<Send>)

  /**
   * Submit the form. Blank content sends nothing and changes nothing.
   * Otherwise the trimmed content is sent with the selected type and, for a
   * link, the URL as typed (any other type sends a null URL); then the form
   * is back in its initial state.
   */
  function Submit(s: State): (r: Outcome)
    ensures IsBlank(s.content) ==> r == Outcome(s, None)
    ensures !IsBlank(s.content) ==> r.state == Initial && r.sent.Some?
    ensures r.sent.Some? ==>
      && r.sent.value.content == Trim(s.content)
      && !IsBlank(r.sent.value.content)
      && r.sent.value.kind == s.kind
      && (r.sent.value.url.Some? <==> s.kind == "link")
      && (r.sent.value.url.Some? ==> r.sent.value.url.value == s.url)
  {
    var content := Trim(s.content);
    if content != [] then
      TrimIdempotent(s.content);
      Outcome(Initial, Some(Send(content, s.kind, if s.kind == "link" then Some(s.url) else None)))
    else
      Outcome(s, None)
  }

  /** The post button is disabled: blank content, or a link with a blank URL. */
  predicate SendDisabled(s: State) {
    Trim(s.content) == [] || (s.kind == "link" && Trim(s.url) == [])
  }

  /** The button is enabled exactly when the content, and for a link also the URL, has a non-whitespace character. */
  lemma SendDisabledMeaning(s: State)
    ensures SendDisabled(s) <==> IsBlank(s.content) || (s.kind == "link" && IsBlank(s.url))
  {
  }

  /** Whenever the button is enabled, submitting posts, and a link carries a non-blank URL. */
  lemma EnabledButtonSends(s: State)
    requires !IsBlank(s.content) && (s.kind == "link" ==> !IsBlank(s.url))
    ensures !SendDisabled(s)
    ensures Submit(s).sent.Some?
    ensures s.kind == "link" ==> !IsBlank(Submit(s).sent.value.url.value)
  {
  }

  /**
   * The submit guard checks less than the button: a link with content but a
   * blank URL is disabled at the button, yet `Submit` would post it, with the
   * blank URL as typed.
   */
  lemma SubmitGuardWeakerThanButton(s: State)
    requires !IsBlank(s.content) && s.kind == "link" && IsBlank(s.url)
    ensures SendDisabled(s)
    ensures Submit(s).sent == Some(Send(Trim(s.content), "link", Some(s.url)))
  {
  }

  /** The user's actions on the form. */
  datatype Event =
    | ChooseType(index: nat)    // one of the type buttons
    | EditContent(text: string) // the text box changes
    | EditUrl(text: string)     // the URL box changes
    | ToggleExpand              // the expand button
    | SubmitForm                // the form is submitted

  /**
   * An event the form can produce: type buttons exist only for the offered
   * types. URL edits are allowed in every state, although the URL box is only
   * shown for links; this over-approximates the form and does not weaken any
   * property proved over runs.
   */
  predicate Possible(e: Event) {
    e.ChooseType? ==> e.index < |MessageTypes|
  }

  /** Apply one user action; only `SubmitForm` can send. */
  function Step(s: State, e: Event): (r: Outcome)
    requires Possible(e)
    ensures ValidKind(s) ==> ValidKind(r.state)
    ensures e.ChooseType? ==> r.state == s.(kind := MessageTypes[e.index]) && r.sent.None?
    ensures e.ToggleExpand? ==> r.state == s.(expanded := !s.expanded) && r.sent.None?
    ensures e.EditContent? ==> r == Outcome(s.(content := e.text), None)
    ensures e.EditUrl? ==> r == Outcome(s.(url := e.text), None)
    ensures e.SubmitForm? ==> r == Submit(s)
    ensures r.sent.Some? ==> e.SubmitForm? && r.sent.value.kind == s.kind
  {
    match e
    case ChooseType(i) => Outcome(s.(kind := MessageTypes[i]), None)
    case EditContent(t) => Outcome(s.(content := t), None)
    case EditUrl(t) => Outcome(s.(url := t), None)
    case ToggleExpand => Outcome(s.(expanded := !s.expanded), None)
    case SubmitForm => Submit(s)
  }

  /** Pressing expand twice restores the form. */
  lemma ToggleExpandTwice(s: State)
    ensures Step(Step(s, ToggleExpand).state, ToggleExpand).state == s
  {
  }

  /** The state after a sequence of actions, and what they posted, in order. */
  datatype Trace = Trace(state: State, sent: seq<Send>)

  function Run(s: State, events: seq<Event>): Trace
    requires forall i :: 0 <= i < |events| ==> Possible(events[i])
    decreases |events|
  {
    if events == [] then Trace(s, [])
    else
      var o := Step(s, events[0]);
      var rest := Run(o.state, events[1..]);
      Trace(rest.state, (if o.sent.Some? then [o.sent.value] else []) + rest.sent)
  }

  /**
   * From a form with an offered type (the initial form has 'text'), whatever
   * the user does, the selected type stays one of the four offered, every
   * post carries such a type, and no post has blank content.
   */
  lemma {:induction false} RunKeepsTypesValid(s: State, events: seq<Event>)
    requires ValidKind(s)
    requires forall i :: 0 <= i < |events| ==> Possible(events[i])
    ensures ValidKind(Run(s, events).state)
    ensures forall i :: 0 <= i < |Run(s, events).sent| ==>
      Run(s, events).sent[i].kind in MessageTypes && !IsBlank(Run(s, events).sent[i].content)
    decreases |events|
  {
    if events != [] {
      var o := Step(s, events[0]);
      RunKeepsTypesValid(o.state, events[1..]);
    }
  }
}
