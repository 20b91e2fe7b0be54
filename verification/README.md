# Ramblings: personal-channel logic in Dafny

This project models the decision logic of the "Ramblings" team-chat front end: the
personal ("ramblings") channel screen, the provisioning of one personal channel per
team member, the post composer, and the message thread. The React components mix
this logic with rendering and with calls to a hosted store. Here it is pulled out
into immutable records and pure transition functions. The values that come from
outside are parameters:

- the ids produced by `Date.now()`;
- the "now" read by `new Date()`;
- the signed-in user;
- the rows returned by the store's queries.

Modules:

- `Wrappers`: the `Option` type that stands for JavaScript's `null`/`undefined`.
- `Text`: JavaScript's `trim`. It strips ECMAScript whitespace and line terminators
  from both ends. The result is falsy exactly when the input is blank, and every form
  decides emptiness this way.
- `Ramblings`: the post and reply records shared by the channel and the thread.
- `ChatInterface`: four pieces of the screen's state and logic. The session posts belong to the
  mounted screen, not to a channel. The parent renders one screen for every channel, so after a
  switch the user's session posts also show, and may be replied to, at the end of other channels.
  - the set of unfolded threads and its toggle;
  - appending a local post;
  - replying to a local post;
  - the displayed list, incoming posts first, then the session posts, plus who may reply
    and which parts of the screen show.
- `TeamContext`: flattening the user's team memberships, the default team selection,
  and the `createRamblingsChannels` proposal. That proposal either is skipped, finds
  nothing missing, inserts a non-empty batch, or fails because a member has no profile.
- `MessageComposer`: the composer's form state, its submit guard, what it sends, its
  reset, the send-button predicate, and an event-driven run of the form.
- `MessageThread`: the relative-time buckets of `formatTime`, the reply box, and the
  visibility rules of a thread.
- `Flows`: two lemmas about the wiring. A composer post lands as the last thread on
  screen. A thread reply lands in its post.

The model follows the code. The code has no optimistic-id reconciliation, no
single-flight refetch, no generation counter and no ordering by creation time. Replies
to posts that arrived through the `ramblings` property are dropped, as
`addReply` only searches the posts added in the session
(`ChatInterface.ReplyKeepsIncomingPosts`, `ChatInterface.AddReplyUnknownTarget`).
Ids are not assumed unique. A reply goes to every local post that carries the target
id, as the `map` in `addReply` does.

## Model

| member | source | states |
|---|---|---|
| `Text.Trim` | src/components/MessageComposer.jsx:12 | `trim` keeps the infix left after dropping whitespace from both ends; what it drops is whitespace, what it keeps has none at either end, and it is empty iff the input is blank |
| `Text.TrimIdempotent` | src/components/MessageThread.jsx:10-11 | trimming an already trimmed text changes nothing, so the text sent is its own trim |
| `ChatInterface.ToggleThread` | src/components/ChatInterface.jsx:10-18 | the toggled id becomes a member iff it was not one; every other id keeps its membership |
| `ChatInterface.ToggleTwice` | src/components/ChatInterface.jsx:10-18 | toggling the same thread twice restores the expanded set |
| `ChatInterface.AddNewRambling` | src/components/ChatInterface.jsx:20-31 | exactly one post is appended after the untouched earlier ones, authored by the current user, with no replies, type defaulting to 'text' and URL to null |
| `ChatInterface.AttachReply` | src/components/ChatInterface.jsx:42-48 | every post whose id matches gets the reply after its replies; every other post is unchanged; length and order are kept |
| `ChatInterface.AddReply` | src/components/ChatInterface.jsx:33-49 | the reply, by the current user with the given content and time, is appended to each local post with the target id; ids, order, other fields and other posts are unchanged |
| `ChatInterface.AddReplyUnknownTarget` | src/components/ChatInterface.jsx:42-48 | a reply whose target no local post carries leaves the state unchanged |
| `ChatInterface.AttachReplyCount` | src/components/ChatInterface.jsx:42-48 | the total number of replies grows by exactly the number of local posts carrying the target id |
| `ChatInterface.AllRamblings` | src/components/ChatInterface.jsx:51 | the displayed list is the incoming posts followed by the local ones, each in order, of summed length |
| `ChatInterface.ReplyKeepsIncomingPosts` | src/components/ChatInterface.jsx:41-51 | replying never changes the incoming posts at the head of the displayed list, nor its length |
| `ChatInterface.OwnPostsReplyable` | src/components/ChatInterface.jsx:95 | every post the user adds in their own channel passes the reply rule |
| `ChatInterface.Render` | src/components/ChatInterface.jsx:67-107 | composer iff own channel, muted badge iff not own channel, empty state iff both lists are empty; otherwise one thread per post, incoming first, unfolded iff its id is in the expanded set, and replyable iff the channel is not the user's own or the user wrote the post |
| `TeamContext.FlattenMemberships` | src/contexts/TeamContext.jsx:44-47 | one entry per membership, in order, with the team and the user's role; null data gives none |
| `TeamContext.FetchUserTeams` | src/contexts/TeamContext.jsx:44-58 | the teams are stored; with no selection and a non-empty list the first team becomes selected, otherwise the selection is unchanged; loading ends |
| `TeamContext.FetchUserTeamsSettles` | src/contexts/TeamContext.jsx:49-53 | fetching the same memberships again changes nothing, and a non-empty list always leaves a team selected |
| `TeamContext.FindRamblings` | src/contexts/TeamContext.jsx:114 | `find` returns a ramblings channel owned by the member iff one exists among the channels, and then the first such channel |
| `TeamContext.Unprovisioned` | src/contexts/TeamContext.jsx:113-114 | a member is kept iff it is a member and no channel is a ramblings channel it owns; a single member is kept exactly when it lacks one |
| `TeamContext.UnprovisionedAppend` | src/contexts/TeamContext.jsx:113-114 | filtering a concatenation is the concatenation of the filtered parts, so the kept members stay in member order with repeats kept |
| `TeamContext.ProposeChannel` | src/contexts/TeamContext.jsx:115-121 | a member with a profile gets a muted-by-default ramblings channel of the team, owned by it and named after its username plus "'s Ramblings"; one without a profile fails |
| `TeamContext.ProposeAll` | src/contexts/TeamContext.jsx:115-121 | one proposal per member in order with team, type, owner, mute flag and name as above; fails iff some member lacks a profile |
| `TeamContext.CreateRamblingsChannels` | src/contexts/TeamContext.jsx:109-133 | skipped iff no team is selected or no members are loaded; nothing missing iff every member owns a ramblings channel; failed iff some member to provision has no profile; otherwise a non-empty insert with one row per member to provision, in order, in the selected team, of type ramblings, muted by default, owned by that member and named after its username |
| `TeamContext.EmptyChannelListInserts` | src/contexts/TeamContext.jsx:110-121 | with no channels loaded, a member with a profile gets a channel proposed, whatever the store holds |
| `TeamContext.OtherTeamChannelCounts` | src/contexts/TeamContext.jsx:114 | a member's ramblings channel in another team counts as theirs, so nothing is proposed for them |
| `TeamContext.UnprovisionedDistinct` | src/contexts/TeamContext.jsx:113-114 | the filter keeps distinct member ids distinct |
| `TeamContext.ProposalOwners` | src/contexts/TeamContext.jsx:115-121 | the proposals include a ramblings channel of a user iff that user is one of the proposed members |
| `TeamContext.ProposalsDistinct` | src/contexts/TeamContext.jsx:115-121 | members with distinct ids get proposals with distinct owners |
| `TeamContext.ProvisioningTargets` | src/contexts/TeamContext.jsx:113-121 | a ramblings channel is proposed for a user iff the user is a member and owns no ramblings channel among the loaded ones |
| `TeamContext.ProvisioningNoDuplicates` | src/contexts/TeamContext.jsx:113-121 | with distinct member ids no member gets two proposals in one run |
| `TeamContext.ProvisioningCovers` | src/contexts/TeamContext.jsx:113-129 | after the inserted channels are added to the loaded ones, every member owns a ramblings channel |
| `TeamContext.NothingMissingCovers` | src/contexts/TeamContext.jsx:113-123 | when a run proposes nothing, every member already owns a ramblings channel |
| `MessageComposer.Submit` | src/components/MessageComposer.jsx:10-19 | blank content sends nothing and changes nothing; otherwise the trimmed, non-blank content is sent with the type and the URL exactly for links, and the form returns to its initial state |
| `MessageComposer.SendDisabledMeaning` | src/components/MessageComposer.jsx:96 | the button is disabled iff the content is blank, or the type is link and the URL is blank |
| `MessageComposer.EnabledButtonSends` | src/components/MessageComposer.jsx:96 | non-blank content, and for a link a non-blank URL, enable the button, and then `handleSubmit` posts, and a link post carries a non-blank URL |
| `MessageComposer.SubmitGuardWeakerThanButton` | src/components/MessageComposer.jsx:12-13 | every link post with content and a blank URL is disabled at the button, yet passes the submit guard and would send the trimmed content with the blank URL as typed |
| `MessageComposer.Step` | src/components/MessageComposer.jsx:30-69 | each user action keeps the type one of the offered four; choosing a type sets it, typing sets the content or the URL, expand flips, only a submit can send, and it sends the current type |
| `MessageComposer.ToggleExpandTwice` | src/components/MessageComposer.jsx:49 | pressing expand twice restores the form |
| `MessageComposer.RunKeepsTypesValid` | src/components/MessageComposer.jsx:21-38 | over any sequence of actions the selected type stays one of text, idea, link, photo, and every post sent has such a type and non-blank content |
| `MessageThread.FloorDiv` | src/components/MessageThread.jsx:20-22 | `Math.floor(a / b)` is the largest q with b*q <= a |
| `MessageThread.FormatTime` | src/components/MessageThread.jsx:17-29 | under a minute (future included) is just now; then 1-59 minutes, 1-23 hours, 1-6 days, each the whole count of the elapsed time; from a week on, the date; exactly one bucket applies |
| `MessageThread.FormatTimeMonotone` | src/components/MessageThread.jsx:24-28 | an older post never falls in an earlier bucket, nor with a smaller count in the same one |
| `MessageThread.Decimal` | src/components/MessageThread.jsx:25-27 | a count is written as decimal digits without a leading zero |
| `MessageThread.DecimalRoundTrip` | src/components/MessageThread.jsx:25-27 | the written count reads back as the count |
| `MessageThread.Label` | src/components/MessageThread.jsx:24-28 | the label is "Just now", the date, or digits reading back as the count followed by "m ago", "h ago" or "d ago", with no leading zero |
| `MessageThread.HandleReply` | src/components/MessageThread.jsx:8-15 | a blank draft sends nothing and changes nothing; otherwise the trimmed non-blank draft is sent, the draft is cleared and the box closed |
| `MessageThread.ToggleReplyBox` | src/components/MessageThread.jsx:89 | the reply button flips the box and keeps the draft |
| `MessageThread.CancelReply` | src/components/MessageThread.jsx:124 | cancel closes the box and keeps the draft |
| `MessageThread.ReplyButtonMatchesGuard` | src/components/MessageThread.jsx:132 | the reply send button is enabled iff submitting sends |
| `MessageThread.Render` | src/components/MessageThread.jsx:61-111 | badge iff the type is present, non-empty and not 'text'; toggle iff there are replies, singular iff one; list iff unfolded with replies; reply button iff replying is allowed; form iff the box is open and replying is allowed |
| `MessageThread.RenderConsistency` | src/components/MessageThread.jsx:77-111 | the list only shows under an unfolded toggle, the form only beside its button, and a successful reply closes the form |
| `Flows.ComposerPostAppearsLast` | src/components/ChatInterface.jsx:102-107 | a composer post in one's own channel is the last thread on screen: trimmed, non-blank, of an offered type, by the user, with a URL exactly for links, and replyable |
| `Flows.ThreadReplyLands` | src/components/ChatInterface.jsx:93 | a thread's reply becomes the last reply of a local post with that id, with the trimmed non-blank draft |

## Left out

- TeamContext.CreateRamblingsChannels: the result holds only for the members and channels passed in. The program runs provisioning whenever the selected team or the member list changes, while the channel query may still be pending. A run can therefore see no channels yet, the previous team's channels, or the previous team's members. It then proposes a second channel for a member who already has one, or a channel in the new team for a member of the old team. The ownership test also ignores the channel's team. `ProvisioningCovers` and `ProvisioningNoDuplicates` are about the inputs of one run, not a guarantee per team.
- MessageComposer.Submit: the browser's check of the `type="url"` box runs before `handleSubmit`. It blocks the submit event for a non-empty URL that is not an absolute URL, so nothing is posted although the button is enabled. `Submit`, and the `SubmitForm` event of `Step`, stand for `handleSubmit` once it runs. The URL syntax check is not modelled.
- The store itself is not modelled: its queries, insert, realtime subscription and the
  refetch after an insert. Query results are inputs and the insert is the `Insert`
  outcome. `fetchTeamMembers` and `fetchTeamChannels` only store `data || []`.
- The `catch` branch of `fetchUserTeams` for a thrown client error is not modelled. A
  null `data` is modelled: it gives an empty list.
- A membership whose joined team row is null is not modelled: the team is required.
  Spreading null would give an entry holding only the role.
- A member profile with a null username is not modelled. JavaScript would name the
  channel "null's Ramblings". A missing profile is modelled: it throws, so the run is
  `Failed`.
- The server-side ordering of channels by type and creation time is left out. The hosted
  store does it, not this code.
- Optimistic-id reconciliation, the single-flight refetch, the generation counter and
  creation-time ordering are left out: none of them appears in these components.
- `Date.now()` ids and `new Date()` timestamps are integer milliseconds passed in. They
  are not assumed unique.
- `toLocaleDateString` is the opaque `AbsoluteDate` label. Its text is a `date` parameter.
- Non-numeric timestamps are left out. JavaScript would compute a NaN difference for them.
- Left out as markup: the per-type content layout (`renderContent`), hint texts,
  placeholders, header descriptions, avatars, CSS classes and `preventDefault`.
- `isOwnChannel` and the current user are inputs. The parent screen computes them.
- AuthModal, ChatApp, PostItem, Sidebar, App and the store client are left out. They are
  authentication, profile I/O, a page reload, and mock data or markup.
