/**
 * The league chat panel (src/components/LeagueChat.tsx): the send rule, the
 * send-button condition and the relative-age label of a message. The clock,
 * the message id and the locale date text are passed in.
 */
module LeagueChat {
  import Text

  /** JavaScript's WhiteSpace and LineTerminator characters, which `trim` removes. */
  predicate IsWhitespace(c: char)
  {
    c in {'\t', '\n', '\U{000B}', '\U{000C}', '\r', ' ', '\U{00A0}', '\U{1680}',
          '\U{2000}', '\U{2001}', '\U{2002}', '\U{2003}', '\U{2004}', '\U{2005}',
          '\U{2006}', '\U{2007}', '\U{2008}', '\U{2009}', '\U{200A}',
          '\U{2028}', '\U{2029}', '\U{202F}', '\U{205F}', '\U{3000}', '\U{FEFF}'}
  }

  predicate IsBlank(s: string)
  {
    forall k :: 0 <= k < |s| ==> IsWhitespace(s[k])
  }

  /** The length of the longest all-whitespace prefix. */
  function LeadingWhitespace(s: string): (n: nat)
    ensures n <= |s|
    ensures IsBlank(s[..n])
    ensures n < |s| ==> !IsWhitespace(s[n])
  {
    if s == [] || !IsWhitespace(s[0]) then 0
    else
      var n := 1 + LeadingWhitespace(s[1..]);
      assert forall k :: 1 <= k < n ==> s[..n][k] == s[1..][..n - 1][k - 1];
      n
  }

  /** The length of the longest all-whitespace suffix. */
  function TrailingWhitespace(s: string): (n: nat)
    ensures n <= |s|
    ensures IsBlank(s[|s| - n..])
    ensures n < |s| ==> !IsWhitespace(s[|s| - n - 1])
  {
    if s == [] || !IsWhitespace(s[|s| - 1]) then 0
    else
      var init := s[..|s| - 1];
      var n := 1 + TrailingWhitespace(init);
      assert s[|s| - n..] == init[|init| - (n - 1)..] + [s[|s| - 1]];
      n
  }

  /** `String.prototype.trim`. */
  function Trim(s: string): string
  {
    var t := s[LeadingWhitespace(s)..];
    t[..|t| - TrailingWhitespace(t)]
  }

  /** Trim cuts the maximal whitespace margins: it is the slice between them. */
  lemma TrimBounds(s: string) returns (i: nat, j: nat)
    ensures i <= j <= |s| && Trim(s) == s[i..j]
    ensures IsBlank(s[..i]) && IsBlank(s[j..])
    ensures i < j ==> !IsWhitespace(s[i]) && !IsWhitespace(s[j - 1])
    ensures i == j ==> i == |s|
  {
    i := LeadingWhitespace(s);
    var t := s[i..];
    var m := TrailingWhitespace(t);
    j := |s| - m;
    assert t[..|t| - m] == s[i..j];
    assert t[|t| - m..] == s[j..];
    if i < j {
      assert t[|t| - m - 1] == s[j - 1];
    }
  }

  /**
   * The trimmed text is a stretch of the input with all-whitespace margins on
   * both sides and no whitespace at either of its own ends.
   */
  lemma TrimSpec(s: string)
    ensures exists i, j :: 0 <= i <= j <= |s| && Trim(s) == s[i..j] && IsBlank(s[..i]) && IsBlank(s[j..])
    ensures Trim(s) != [] ==> !IsWhitespace(Trim(s)[0]) && !IsWhitespace(Trim(s)[|Trim(s)| - 1])
  {
    var i, j := TrimBounds(s);
    assert 0 <= i <= j <= |s| && Trim(s) == s[i..j] && IsBlank(s[..i]) && IsBlank(s[j..]);
  }

  /** `!text.trim()`: the trimmed text is empty exactly when the text is all whitespace. */
  lemma TrimEmptyIffBlank(s: string)
    ensures Trim(s) == [] <==> IsBlank(s)
  {
    var i, j := TrimBounds(s);
    if i == j {
      assert s[..i] == s;
    } else {
      assert !IsWhitespace(s[i]);
    }
  }

  /** Trimming twice changes nothing more. */
  lemma TrimIdempotent(s: string)
    ensures Trim(Trim(s)) == Trim(s)
  {
    TrimSpec(s);
    var t := Trim(s);
    if t != [] {
      assert LeadingWhitespace(t) == 0;
      assert t[0..] == t;
      assert TrailingWhitespace(t) == 0;
    }
  }

  /** A message; `isSystem` is false where the source leaves it out. */
  datatype ChatMessage = ChatMessage(id: string, user: string, message: string, timestamp: int, isSystem: bool)

  /** The panel's state: the message list and the text in the input box. */
  datatype ChatState = ChatState(messages: seq<ChatMessage>, newMessage: string)

  /** The send button is disabled while the input is blank. */
  predicate SendDisabled(state: ChatState)
  {
    Trim(state.newMessage) == []
  }

  /** `handleSendMessage`: blank input is ignored; otherwise append the trimmed text and clear the input. */
  function Send(state: ChatState, currentUser: string, id: string, now: int): ChatState
  {
    if Trim(state.newMessage) == [] then state
    else ChatState(state.messages + [ChatMessage(id, currentUser, Trim(state.newMessage), now, false)], "")
  }

  /** Blank input changes nothing, and the button is disabled exactly then. */
  lemma SendRejectsBlank(state: ChatState, currentUser: string, id: string, now: int)
    ensures Send(state, currentUser, id, now) == state <==> IsBlank(state.newMessage)
    ensures SendDisabled(state) <==> IsBlank(state.newMessage)
  {
    TrimEmptyIffBlank(state.newMessage);
  }

  /**
   * Any other input appends exactly one message, by the current user, holding
   * the trimmed text with no whitespace at either end; earlier messages are
   * untouched and the input is cleared.
   */
  lemma SendAppendsOne(state: ChatState, currentUser: string, id: string, now: int)
    requires !IsBlank(state.newMessage)
    ensures var after := Send(state, currentUser, id, now);
      && |after.messages| == |state.messages| + 1
      && after.messages[..|state.messages|] == state.messages
      && after.messages[|state.messages|].user == currentUser
      && after.messages[|state.messages|].message == Trim(state.newMessage)
      && after.messages[|state.messages|].message != []
      && !IsWhitespace(after.messages[|state.messages|].message[0])
      && !IsWhitespace(after.messages[|state.messages|].message[|after.messages[|state.messages|].message| - 1])
      && after.newMessage == []
  {
    TrimEmptyIffBlank(state.newMessage);
    TrimSpec(state.newMessage);
    var after := Send(state, currentUser, id, now);
    assert after.messages[..|state.messages|] == state.messages;
  }

  /** The header's count rises by one on a send and stays put on a rejection. */
  lemma SendCount(state: ChatState, currentUser: string, id: string, now: int)
    ensures |Send(state, currentUser, id, now).messages|
         == |state.messages| + (if SendDisabled(state) then 0 else 1)
  {
  }

  /** The panel, with the signed-in user fixed when it is created. */
  class Chat {
    var messages: seq<ChatMessage>
    var newMessage: string
    const currentUser: string

    constructor (initial: seq<ChatMessage>, currentUser: string)
      ensures messages == initial && newMessage == [] && this.currentUser == currentUser
    {
      messages := initial;
      newMessage := "";
      this.currentUser := currentUser;
    }

    function State(): ChatState
      reads this
    {
      ChatState(messages, newMessage)
    }

    /** The input's onChange handler. */
    method SetNewMessage(text: string)
      modifies this
      ensures newMessage == text && messages == old(messages)
    {
      newMessage := text;
    }

    /** The form's submit handler; `now` stands for the clock and `id` for its string form. */
    method HandleSendMessage(id: string, now: int)
      modifies this
      ensures State() == Send(old(State()), currentUser, id, now)
    {
      var text := Trim(newMessage);
      if text == [] {
        return;
      }
      var message := ChatMessage(id, currentUser, text, now, false);
      messages := messages + [message];
      newMessage := "";
    }
  }

  // ---------------------------------------------------------------------------
  // Relative age of a message

  const MillisPerMinute: int := 60000
  const MillisPerHour: int := 3600000

  datatype AgeLabel = MinutesAgo(minutes: int) | HoursAgo(hours: int) | LocaleDate

  /** `formatDate`'s bucketing: the age in hours decides minutes, hours or a date. */
  function AgeBucket(now: int, timestamp: int): AgeLabel
  {
    var diffInHours := ((now - timestamp) as real) / (MillisPerHour as real);
    if diffInHours < 1.0 then MinutesAgo((diffInHours * 60.0).Floor)
    else if diffInHours < 24.0 then HoursAgo(diffInHours.Floor)
    else LocaleDate
  }

  /** `formatDate`, with the text of `toLocaleDateString` passed in. */
  function FormatDate(now: int, timestamp: int, localeDate: string): string
  {
    match AgeBucket(now, timestamp)
    case MinutesAgo(m) => Text.Decimal(m) + "m ago"
    case HoursAgo(h) => Text.Decimal(h) + "h ago"
    case LocaleDate => localeDate
  }

  /** `floor(d / q)` for a positive divisor is integer division rounding down. */
  lemma FloorOfQuotient(d: int, q: int)
    requires q > 0
    ensures ((d as real) / (q as real)).Floor == d / q
  {
    var k := d / q;
    var x := (d as real) / (q as real);
    assert d == k * q + d % q;
    assert (d as real) == (k as real) * (q as real) + ((d % q) as real);
    assert x == (k as real) + ((d % q) as real) / (q as real);
    FractionBelowOne((d % q) as real, q as real);
  }

  lemma FractionBelowOne(a: real, b: real)
    requires 0.0 <= a < b
    ensures 0.0 <= a / b < 1.0
  {
    var y := a / b;
    assert y * b == a;
  }

  /** An age under an hour is shown in whole minutes, 0 to 59 for a message not in the future. */
  lemma MinutesBucket(now: int, timestamp: int)
    requires now - timestamp < MillisPerHour
    ensures AgeBucket(now, timestamp) == MinutesAgo((now - timestamp) / MillisPerMinute)
    ensures 0 <= now - timestamp ==> 0 <= (now - timestamp) / MillisPerMinute <= 59
  {
    var d := now - timestamp;
    var h := (d as real) / (MillisPerHour as real);
    assert h * 60.0 == (d as real) / (MillisPerMinute as real);
    FloorOfQuotient(d, MillisPerMinute);
  }

  /** An age of one hour up to a day is shown in whole hours, 1 to 23. */
  lemma HoursBucket(now: int, timestamp: int)
    requires MillisPerHour <= now - timestamp < 24 * MillisPerHour
    ensures AgeBucket(now, timestamp) == HoursAgo((now - timestamp) / MillisPerHour)
    ensures 1 <= (now - timestamp) / MillisPerHour <= 23
  {
    FloorOfQuotient(now - timestamp, MillisPerHour);
  }

  /** A day or more falls to the locale date. */
  lemma DateBucket(now: int, timestamp: int, localeDate: string)
    requires now - timestamp >= 24 * MillisPerHour
    ensures FormatDate(now, timestamp, localeDate) == localeDate
  {
  }
}
