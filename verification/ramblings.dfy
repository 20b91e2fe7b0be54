/**
 * The records a personal ("ramblings") channel displays. Ids and timestamps
 * are the `Date.now()` / `new Date()` values taken when a record is created
 * locally; they are passed in as integers (milliseconds) and are not assumed
 * to be unique.
 */
module Ramblings {
  import opened Wrappers

  type MessageId = int

  /** The signed-in user as the chat screens see it. */
  datatype User = User(id: int, name: string)

  datatype Reply = Reply(id: MessageId, author: string, content: string, timestamp: int)

  /**
   * A top-level post. `kind` is the post type (`'text'`, `'idea'`, `'link'`,
   * `'photo'` or whatever the server sent); `None` stands for a missing
   * field. `url` is only meaningful for links.
   */
  datatype Rambling = Rambling(
    id: MessageId,
    author: string,
    content: string,
    kind: Option<string>,
    url: Option<string>,
    timestamp: int,
    replies: seq<Reply>)

  /** The ids of a list of posts, in order. */
  function Ids(xs: seq<Rambling>): (ids: seq<MessageId>)
    ensures |ids| == |xs|
    ensures forall i :: 0 <= i < |xs| ==> ids[i] == xs[i].id
  {
    seq(|xs|, i requires 0 <= i < |xs| => xs[i].id)
  }

  /** Total number of replies over a list of posts. */
  function TotalReplies(xs: seq<Rambling>): nat {
    if xs == [] then 0 else |xs[0].replies| + TotalReplies(xs[1..])
  }

  /** How many posts in `xs` carry the id `id`. */
  function CountId(xs: seq<Rambling>, id: MessageId): nat {
    if xs == [] then 0 else (if xs[0].id == id then 1 else 0) + CountId(xs[1..], id)
  }
}
