/**
 * The personal-channel screen: the locally added posts, the set of threads
 * whose replies are unfolded, and the rules that decide what is displayed
 * and who may reply.
 */
module ChatInterface {
  import opened Wrappers
  import opened Ramblings

  /** Component state: unfolded thread ids and posts added in this session. */
  datatype State = State(expanded: set<MessageId>, newRamblings: seq<Rambling>)

  const Initial: State := State({}, [])

  /** Unfold a folded thread, fold an unfolded one; no other thread changes. */
  function ToggleThread(expanded: set<MessageId>, id: MessageId): (r: set<MessageId>)
    ensures id in r <==> id !in expanded
    ensures forall x :: x != id ==> (x in r <==> x in expanded)
  {
    if id in expanded then expanded - {id} else expanded + {id}
  }

  /** Toggling the same thread twice restores the original set. */
  lemma ToggleTwice(expanded: set<MessageId>, id: MessageId)
    ensures ToggleThread(ToggleThread(expanded, id), id) == expanded
  {
  }

  /**
   * Post a new rambling as the current user. `kind` and `url` are `None` when
   * the caller leaves the argument out; the type then defaults to `'text'`
   * and the URL to null. The post is appended after every earlier one.
   */
  function AddNewRambling(
    s: State, user: User, id: MessageId, now: int,
    content: string, kind: Option<string>, url: Option<string>): (r: State)
    ensures r.expanded == s.expanded
    ensures |r.newRamblings| == |s.newRamblings| + 1
    ensures r.newRamblings[..|s.newRamblings|] == s.newRamblings
    ensures var m := r.newRamblings[|s.newRamblings|];
      && m.id == id && m.author == user.name && m.content == content
      && m.timestamp == now && m.replies == []
      && m.kind == Some(if kind.None? then "text" else kind.value)
      && m.url == url
  {
    var m := Rambling(id, user.name, content, Some(kind.GetOr("text")), url, now, []);
    s.(newRamblings := s.newRamblings + [m])
  }

  /** `m` with `reply` added after its existing replies. */
  function WithReply(m: Rambling, reply: Reply): (r: Rambling)
    ensures r.replies == m.replies + [reply]
    ensures r.(replies := m.replies) == m
  {
    m.(replies := m.replies + [reply])
  }

  /**
   * Add `reply` to every post of `xs` whose id is `target`, leaving the others
   * as they are; the list keeps its length and order.
   */
  function AttachReply(xs: seq<Rambling>, target: MessageId, reply: Reply): (r: seq<Rambling>)
    ensures |r| == |xs|
    ensures forall i :: 0 <= i < |xs| && xs[i].id == target ==> r[i] == WithReply(xs[i], reply)
    ensures forall i :: 0 <= i < |xs| && xs[i].id != target ==> r[i] == xs[i]
  {
    if xs == [] then []
    else
      var head := if xs[0].id == target then WithReply(xs[0], reply) else xs[0];
      [head] + AttachReply(xs[1..], target, reply)
  }

  /**
   * Reply to post `target` as the current user. Only the posts added in this
   * session are searched: a reply to a post that came in through the
   * `ramblings` property, or to an id nobody carries, changes nothing.
   */
  function AddReply(
    s: State, user: User, id: MessageId, now: int,
    target: MessageId, content: string): (r: State)
    ensures r.expanded == s.expanded
    ensures |r.newRamblings| == |s.newRamblings|
    ensures Ids(r.newRamblings) == Ids(s.newRamblings)
    ensures forall i :: 0 <= i < |s.newRamblings| && s.newRamblings[i].id == target ==>
      r.newRamblings[i].replies == s.newRamblings[i].replies + [Reply(id, user.name, content, now)]
    ensures forall i :: 0 <= i < |s.newRamblings| ==>
      r.newRamblings[i].(replies := s.newRamblings[i].replies) == s.newRamblings[i]
    ensures forall i :: 0 <= i < |s.newRamblings| && s.newRamblings[i].id != target ==>
      r.newRamblings[i] == s.newRamblings[i]
  {
    var reply := Reply(id, user.name, content, now);
    s.(newRamblings := AttachReply(s.newRamblings, target, reply))
  }

  /** A reply whose target no local post carries leaves the state as it was. */
  lemma AddReplyUnknownTarget(
    s: State, user: User, id: MessageId, now: int, target: MessageId, content: string)
    requires target !in Ids(s.newRamblings)
    ensures AddReply(s, user, id, now, target, content) == s
  {
    var r := AddReply(s, user, id, now, target, content);
    forall i | 0 <= i < |s.newRamblings|
      ensures r.newRamblings[i] == s.newRamblings[i]
    {
      assert Ids(s.newRamblings)[i] == s.newRamblings[i].id;
    }
  }

  /** Each call adds one reply per local post carrying the target id. */
  lemma {:induction false} AttachReplyCount(xs: seq<Rambling>, target: MessageId, reply: Reply)
    ensures TotalReplies(AttachReply(xs, target, reply)) == TotalReplies(xs) + CountId(xs, target)
  {
    if xs != [] {
      var r := AttachReply(xs, target, reply);
      assert r[1..] == AttachReply(xs[1..], target, reply);
      AttachReplyCount(xs[1..], target, reply);
    }
  }

  /** The list on screen: the posts passed in, then the ones added here. */
  function AllRamblings(ramblings: seq<Rambling>, newRamblings: seq<Rambling>): (r: seq<Rambling>)
    ensures |r| == |ramblings| + |newRamblings|
    ensures r[..|ramblings|] == ramblings && r[|ramblings|..] == newRamblings
  {
    ramblings + newRamblings
  }

  /**
   * Replying never alters the posts that came from the `ramblings` property:
   * the head of the displayed list is the same before and after.
   */
  lemma ReplyKeepsIncomingPosts(
    ramblings: seq<Rambling>, s: State, user: User, id: MessageId, now: int,
    target: MessageId, content: string)
    ensures var r := AddReply(s, user, id, now, target, content);
      && AllRamblings(ramblings, r.newRamblings)[..|ramblings|] == ramblings
      && |AllRamblings(ramblings, r.newRamblings)| == |AllRamblings(ramblings, s.newRamblings)|
  {
  }

  /**
   * Whether the current user may reply to `post`: anyone may reply in someone
   * else's channel; in one's own channel only to one's own posts.
   */
  predicate CanReply(isOwnChannel: bool, user: User, post: Rambling) {
    !isOwnChannel || post.author == user.name
  }

  /** Everything the current user posts in their own channel can be replied to. */
  lemma OwnPostsReplyable(
    s: State, user: User, id: MessageId, now: int,
    content: string, kind: Option<string>, url: Option<string>)
    ensures var r := AddNewRambling(s, user, id, now, content, kind, url);
      CanReply(true, user, r.newRamblings[|s.newRamblings|])
  {
  }

  /** What one `MessageThread` is handed for a displayed post. */
  datatype ThreadProps = ThreadProps(message: Rambling, isExpanded: bool, canReply: bool)

  /** The screen: muted badge in the header, empty state or thread list, composer. */
  datatype View = View(mutedBadge: bool, emptyState: bool, threads: seq<ThreadProps>, composer: bool)

  /**
   * Render the channel. The composer is offered only in one's own channel and
   * the muted badge only in other people's; the empty state shows exactly
   * when neither the incoming nor the local list has a post; otherwise every
   * post, incoming first, gets a thread whose unfolded flag is its id's
   * membership in the expanded set.
   */
  function Render(ramblings: seq<Rambling>, s: State, user: User, isOwnChannel: bool): (v: View)
    ensures v.composer <==> isOwnChannel
    ensures v.mutedBadge <==> !isOwnChannel
    ensures v.emptyState <==> ramblings == [] && s.newRamblings == []
    ensures |v.threads| == |ramblings| + |s.newRamblings|
    ensures forall i :: 0 <= i < |ramblings| ==> v.threads[i].message == ramblings[i]
    ensures forall i :: 0 <= i < |s.newRamblings| ==>
      v.threads[|ramblings| + i].message == s.newRamblings[i]
    ensures forall i :: 0 <= i < |v.threads| ==>
      && (v.threads[i].isExpanded <==> v.threads[i].message.id in s.expanded)
      && (v.threads[i].canReply <==> !isOwnChannel || v.threads[i].message.author == user.name)
  {
    var all := AllRamblings(ramblings, s.newRamblings);
    var empty := |all| == 0;
    var threads := seq(|all|, i requires 0 <= i < |all| =>
      ThreadProps(all[i], all[i].id in s.expanded, CanReply(isOwnChannel, user, all[i])));
    View(!isOwnChannel, empty, if empty then [] else threads, isOwnChannel)
  }
}
