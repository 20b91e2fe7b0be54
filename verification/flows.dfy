/**
 * How the components are wired together on the personal-channel screen:
 * the composer's send lands in the screen's session posts, and a thread's
 * reply lands in the post it belongs to.
 */
module Flows {
  import opened Wrappers
  import opened Text
  import opened Ramblings
  import ChatInterface
  import MessageComposer
  import MessageThread

  /**
   * A post submitted from the composer in one's own channel appears as the
   * last thread on screen: trimmed, non-blank, of an offered type, by the
   * current user, with a URL exactly for links, and open to the user's
   * replies; the empty state is gone.
   */
  lemma ComposerPostAppearsLast(
    ramblings: seq<Rambling>, cs: ChatInterface.State, user: User, id: MessageId, now: int,
    form: MessageComposer.State)
    requires MessageComposer.ValidKind(form)
    requires !IsBlank(form.content)
    ensures
      var send := MessageComposer.Submit(form).sent.value;
      var cs' := ChatInterface.AddNewRambling(cs, user, id, now, send.content, Some(send.kind), send.url);
      var v := ChatInterface.Render(ramblings, cs', user, true);
      var t := v.threads[|v.threads| - 1];
      && !v.emptyState && v.composer
      && t.message.content == Trim(form.content) && !IsBlank(t.message.content)
      && t.message.author == user.name
      && t.message.kind == Some(form.kind)
      && (t.message.url.Some? <==> form.kind == "link")
      && t.canReply && (t.isExpanded <==> id in cs.expanded)
  {
    var send := MessageComposer.Submit(form).sent.value;
    var cs' := ChatInterface.AddNewRambling(cs, user, id, now, send.content, Some(send.kind), send.url);
    var v := ChatInterface.Render(ramblings, cs', user, true);
    assert v.threads[|ramblings| + |cs.newRamblings|].message == cs'.newRamblings[|cs.newRamblings|];
  }

  /**
   * A reply submitted from a thread becomes the last reply of a local post
   * carrying that thread's id, with the trimmed, non-blank draft as content.
   */
  lemma ThreadReplyLands(
    cs: ChatInterface.State, user: User, id: MessageId, now: int,
    target: MessageId, box: MessageThread.State, i: nat)
    requires !IsBlank(box.replyText)
    requires i < |cs.newRamblings| && cs.newRamblings[i].id == target
    ensures
      var text := MessageThread.HandleReply(box).sent.value;
      var post := ChatInterface.AddReply(cs, user, id, now, target, text).newRamblings[i];
      && text == Trim(box.replyText) && !IsBlank(text)
      && |post.replies| == |cs.newRamblings[i].replies| + 1
      && post.replies[|cs.newRamblings[i].replies|] == Reply(id, user.name, text, now)
  {
    var text := MessageThread.HandleReply(box).sent.value;
    var post := ChatInterface.AddReply(cs, user, id, now, target, text).newRamblings[i];
    assert post.replies == cs.newRamblings[i].replies + [Reply(id, user.name, text, now)];
  }
}
