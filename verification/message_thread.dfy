/**
 * One post with its replies: the relative "time ago" label, the reply box
 * and its submit guard, and which parts of the thread are shown.
 */
module MessageThread {
  import opened Wrappers
  import opened Text
  import opened Ramblings

  const MinuteMs: int := 60000
  const HourMs: int := 3600000
  const DayMs: int := 86400000

  /** `Math.floor(a / b)` for a positive divisor: the largest `q` with `b * q <= a`. */
  function FloorDiv(a: int, b: int): (q: int)
    requires b > 0
    ensures b * q <= a < b * q + b
  {
    a / b
  }

  /** A post's age as displayed; `AbsoluteDate` is the locale date of the timestamp. */
  datatype TimeLabel =
    | JustNow
    | MinutesAgo(minutes: int)
    | HoursAgo(hours: int)
    | DaysAgo(days: int)
    | AbsoluteDate

  /**
   * The label for a post made at `timestamp`, read at `now` (both in
   * milliseconds). Under a minute, future timestamps included, is "just now";
   * then whole minutes up to 59, whole hours up to 23, whole days up to 6;
   * from a week on, the date itself.
   */
  function FormatTime(now: int, timestamp: int): (r: TimeLabel)
    ensures r.JustNow? <==> now - timestamp < MinuteMs
    ensures r.MinutesAgo? <==> MinuteMs <= now - timestamp < HourMs
    ensures r.HoursAgo? <==> HourMs <= now - timestamp < DayMs
    ensures r.DaysAgo? <==> DayMs <= now - timestamp < 7 * DayMs
    ensures r.AbsoluteDate? <==> 7 * DayMs <= now - timestamp
    ensures r.MinutesAgo? ==>
      1 <= r.minutes <= 59 && r.minutes * MinuteMs <= now - timestamp < (r.minutes + 1) * MinuteMs
    ensures r.HoursAgo? ==>
      1 <= r.hours <= 23 && r.hours * HourMs <= now - timestamp < (r.hours + 1) * HourMs
    ensures r.DaysAgo? ==>
      1 <= r.days <= 6 && r.days * DayMs <= now - timestamp < (r.days + 1) * DayMs
  {
    var diff := now - timestamp;
    var minutes := FloorDiv(diff, MinuteMs);
    var hours := FloorDiv(diff, HourMs);
    var days := FloorDiv(diff, DayMs);
    if minutes < 1 then JustNow
    else if minutes < 60 then MinutesAgo(minutes)
    else if hours < 24 then HoursAgo(hours)
    else if days < 7 then DaysAgo(days)
    else AbsoluteDate
  }

  /** The buckets in the order they are tried. */
  function Rank(l: TimeLabel): nat {
    match l
    case JustNow => 0
    case MinutesAgo(_) => 1
    case HoursAgo(_) => 2
    case DaysAgo(_) => 3
    case AbsoluteDate => 4
  }

  /** An older post never lands in an earlier bucket, nor with a smaller count in the same one. */
  lemma FormatTimeMonotone(now: int, newer: int, older: int)
    requires older <= newer
    ensures Rank(FormatTime(now, newer)) <= Rank(FormatTime(now, older))
    ensures FormatTime(now, newer).MinutesAgo? && FormatTime(now, older).MinutesAgo? ==>
      FormatTime(now, newer).minutes <= FormatTime(now, older).minutes
    ensures FormatTime(now, newer).HoursAgo? && FormatTime(now, older).HoursAgo? ==>
      FormatTime(now, newer).hours <= FormatTime(now, older).hours
    ensures FormatTime(now, newer).DaysAgo? && FormatTime(now, older).DaysAgo? ==>
      FormatTime(now, newer).days <= FormatTime(now, older).days
  {
  }

  predicate IsDigits(s: string) {
    forall i :: 0 <= i < |s| ==> '0' <= s[i] <= '9'
  }

  /** The value of a string of decimal digits. */
  function DecimalValue(s: string): nat
    requires IsDigits(s)
  {
    if s == [] then 0 else DecimalValue(s[..|s| - 1]) * 10 + (s[|s| - 1] as int - '0' as int)
  }

  /** A non-negative number as JavaScript writes it in a template: decimal, no leading zero. */
  function Decimal(n: nat): (s: string)
    ensures |s| >= 1 && IsDigits(s)
    ensures |s| > 1 ==> s[0] != '0'
  {
    var d := ('0' as int + n % 10) as char;
    if n < 10 then [d] else Decimal(n / 10) + [d]
  }

  /** Reading back a rendered number gives the number. */
  lemma {:induction false} DecimalRoundTrip(n: nat)
    ensures DecimalValue(Decimal(n)) == n
  {
    if n >= 10 {
      var s := Decimal(n);
      assert s[..|s| - 1] == Decimal(n / 10);
      DecimalRoundTrip(n / 10);
    }
  }

  /**
   * The text shown for a label; `date` is the locale rendering of the
   * timestamp. The number in a relative label reads back as its count and has
   * no leading zero.
   */
  function Label(l: TimeLabel, date: string): (r: string)
    requires l.MinutesAgo? ==> l.minutes >= 0
    requires l.HoursAgo? ==> l.hours >= 0
    requires l.DaysAgo? ==> l.days >= 0
    ensures l.JustNow? ==> r == "Just now"
    ensures l.AbsoluteDate? ==> r == date
    ensures l.MinutesAgo? ==>
      |r| > 5 && r[|r| - 5..] == "m ago" && IsDigits(r[..|r| - 5]) && DecimalValue(r[..|r| - 5]) == l.minutes
      && (|r| > 6 ==> r[0] != '0')
    ensures l.HoursAgo? ==>
      |r| > 5 && r[|r| - 5..] == "h ago" && IsDigits(r[..|r| - 5]) && DecimalValue(r[..|r| - 5]) == l.hours
      && (|r| > 6 ==> r[0] != '0')
    ensures l.DaysAgo? ==>
      |r| > 5 && r[|r| - 5..] == "d ago" && IsDigits(r[..|r| - 5]) && DecimalValue(r[..|r| - 5]) == l.days
      && (|r| > 6 ==> r[0] != '0')
  {
    match l
    case JustNow => "Just now"
    case MinutesAgo(m) => DecimalRoundTrip(m); Decimal(m) + "m ago"
    case HoursAgo(h) => DecimalRoundTrip(h); Decimal(h) + "h ago"
    case DaysAgo(d) => DecimalRoundTrip(d); Decimal(d) + "d ago"
    case AbsoluteDate => date
  }

  /** The thread's own state: the reply draft and whether the reply box is open. */
  datatype State = State(replyText: string, showReplyBox: bool)

  const Initial: State := State("", false)

  datatype ReplyOutcome = ReplyOutcome(state: State, sent: Option<string>)

  /**
   * Submit the reply box. A blank draft sends nothing and changes nothing;
   * otherwise the trimmed draft is handed to the channel, the draft is
   * cleared and the box closed.
   */
  function HandleReply(s: State): (r: ReplyOutcome)
    ensures IsBlank(s.replyText) ==> r == ReplyOutcome(s, None)
    ensures !IsBlank(s.replyText) ==> r.state == Initial && r.sent == Some(Trim(s.replyText))
    ensures r.sent.Some? ==> !IsBlank(r.sent.value) && Trim(r.sent.value) == r.sent.value
  {
    var text := Trim(s.replyText);
    if text != [] then
      TrimIdempotent(s.replyText);
      ReplyOutcome(Initial, Some(text))
    else
      ReplyOutcome(s, None)
  }

  /** The reply button opens a closed box and closes an open one, keeping the draft. */
  function ToggleReplyBox(s: State): (r: State)
    ensures r.showReplyBox != s.showReplyBox && r.replyText == s.replyText
  {
    s.(showReplyBox := !s.showReplyBox)
  }

  /** Cancel closes the box and keeps the draft. */
  function CancelReply(s: State): (r: State)
    ensures !r.showReplyBox && r.replyText == s.replyText
  {
    s.(showReplyBox := false)
  }

  /** The reply box's send button is disabled for a blank draft. */
  predicate ReplySendDisabled(s: State) {
    Trim(s.replyText) == []
  }

  /** Unlike the composer, the reply button and the submit guard agree: sending happens iff the button is enabled. */
  lemma ReplyButtonMatchesGuard(s: State)
    ensures !ReplySendDisabled(s) <==> HandleReply(s).sent.Some?
  {
  }

  /** The "n replies" button: the arrow's state, the count and the noun after it. */
  datatype RepliesToggle = RepliesToggle(expanded: bool, count: nat, noun: string)

  /** What a thread shows. `replies` is `Some` when the replies list is rendered. */
  datatype ThreadView = ThreadView(
    author: string,
    time: TimeLabel,
    typeBadge: Option<string>,
    toggle: Option<RepliesToggle>,
    replyButton: bool,
    replies: Option<seq<Reply>>,
    replyForm: bool)

  /**
   * Render a post. The type badge shows for a present, non-empty type other
   * than `'text'` (an empty string is falsy); the replies toggle only when
   * there are replies, singular exactly for one; the list only when the
   * thread is unfolded and has replies; the reply button when replying is
   * allowed, and the form when the box is open and replying is allowed.
   */
  function Render(message: Rambling, isExpanded: bool, canReply: bool, s: State, now: int): (v: ThreadView)
    ensures v.author == message.author && v.time == FormatTime(now, message.timestamp)
    ensures v.typeBadge.Some? <==>
      message.kind.Some? && message.kind.value != "" && message.kind.value != "text"
    ensures v.typeBadge.Some? ==> v.typeBadge == message.kind
    ensures v.toggle.Some? <==> |message.replies| > 0
    ensures v.toggle.Some? ==>
      && v.toggle.value.count == |message.replies|
      && v.toggle.value.expanded == isExpanded
      && (v.toggle.value.noun == "reply" <==> |message.replies| == 1)
      && (v.toggle.value.noun == "reply" || v.toggle.value.noun == "replies")
    ensures v.replyButton <==> canReply
    ensures v.replies.Some? <==> isExpanded && |message.replies| > 0
    ensures v.replies.Some? ==> v.replies.value == message.replies
    ensures v.replyForm <==> s.showReplyBox && canReply
  {
    var n := |message.replies|;
    var badge := if message.kind.Some? && message.kind.value != "" && message.kind.value != "text"
      then message.kind else None;
    var toggle := if n > 0
      then Some(RepliesToggle(isExpanded, n, if n == 1 then "reply" else "replies")) else None;
    ThreadView(
      message.author,
      FormatTime(now, message.timestamp),
      badge,
      toggle,
      canReply,
      if isExpanded && n > 0 then Some(message.replies) else None,
      s.showReplyBox && canReply)
  }

  /**
   * The list is only ever shown under its toggle, the form only beside its
   * button, and a successful reply closes the form.
   */
  lemma RenderConsistency(message: Rambling, isExpanded: bool, canReply: bool, s: State, now: int)
    ensures var v := Render(message, isExpanded, canReply, s, now);
      (v.replies.Some? ==> v.toggle.Some? && v.toggle.value.expanded)
      && (v.replyForm ==> v.replyButton)
    ensures HandleReply(s).sent.Some? ==>
      !Render(message, isExpanded, canReply, HandleReply(s).state, now).replyForm
  {
  }
}
