/**
 * The live-feed handlers of index.js (lines 36-58 and 78-91): which inbound
 * event makes the program send the VLC "next" command.
 */
module Feed {
  import opened JsRuntime

  /** The events index.js subscribes to, with the fields its handlers read. */
  datatype Event =
    | Connected
    | Disconnected
    | Error
    | StreamEnd
    | Chat(user: JsValue, comment: JsValue)
    | Gift(user: JsValue, giftType: JsValue, repeatEnd: JsValue)

  /** The chat text that skips to the next playlist entry. */
  const SkipCommand: string := "/skip"

  /** `typeof comment === "string" && comment.trim().toLowerCase() === "/skip"`. */
  predicate IsSkipComment(comment: JsValue) {
    comment.Str? && ToLower(Trim(comment.s)) == SkipCommand
  }

  /** `gift.giftType === 1 && !gift.repeatEnd`: a streakable gift whose streak is still running. */
  predicate IsMidStreak(giftType: JsValue, repeatEnd: JsValue) {
    giftType == Number(1) && !Truthy(repeatEnd)
  }

  /**
   * Whether handling `e` reaches `sendVlcCommand`. The chat and gift handlers first
   * log `message.user.uniqueId`, which throws before the test when `user` is nullish.
   */
  predicate ShouldTrigger(e: Event) {
    match e
    case Chat(user, comment) => !IsNullish(user) && IsSkipComment(comment)
    case Gift(user, giftType, repeatEnd) => !IsNullish(user) && !IsMidStreak(giftType, repeatEnd)
    case _ => false
  }

  /** The spellings of "/skip" that lower-case to it: each letter in either case, `k` also as U+212A. */
  predicate SkipSpelling(t: string) {
    && |t| == 5 && t[0] == '/'
    && t[1] in "sS" && t[2] in "kK\U{212A}" && t[3] in "iI" && t[4] in "pP"
  }

  lemma LowerIsSkipIff(t: string)
    ensures ToLower(t) == SkipCommand <==> SkipSpelling(t)
  {
    if ToLower(t) == SkipCommand {
      assert |t| == 5;
      assert forall i :: 0 <= i < 5 ==> ToLowerChar(t[i]) == SkipCommand[i];
      assert ToLowerChar(t[1]) == 's' && ToLowerChar(t[2]) == 'k';
      assert ToLowerChar(t[3]) == 'i' && ToLowerChar(t[4]) == 'p';
    }
    if SkipSpelling(t) {
      assert ToLower(t) == [ToLowerChar(t[0]), ToLowerChar(t[1]), ToLowerChar(t[2]), ToLowerChar(t[3]), ToLowerChar(t[4])];
    }
  }

  /** A chat triggers iff its author is set, its comment is a string, and the trimmed comment spells "/skip". */
  lemma ChatTriggerIff(user: JsValue, comment: JsValue)
    ensures ShouldTrigger(Chat(user, comment))
        <==> !IsNullish(user) && comment.Str? && SkipSpelling(Trim(comment.s))
  {
    if comment.Str? {
      LowerIsSkipIff(Trim(comment.s));
    }
  }

  /** Leading and trailing white space never changes the decision on a chat. */
  lemma ChatPaddingIrrelevant(user: JsValue, p: string, s: string, q: string)
    requires AllWhiteSpace(p) && AllWhiteSpace(q)
    ensures ShouldTrigger(Chat(user, Str(p + s + q))) == ShouldTrigger(Chat(user, Str(s)))
  {
    TrimAbsorbsPadding(p, s, q);
  }

  /** Letter case never changes the decision on a chat. */
  lemma ChatCaseIrrelevant(user: JsValue, s: string, s': string)
    requires ToLower(s) == ToLower(s')
    ensures ShouldTrigger(Chat(user, Str(s))) == ShouldTrigger(Chat(user, Str(s')))
  {
    TrimLowerCommute(s);
    TrimLowerCommute(s');
  }

  /** Any spelling of "/skip" with any white-space padding triggers. */
  lemma PaddedSkipTriggers(user: JsValue, p: string, t: string, q: string)
    requires !IsNullish(user) && AllWhiteSpace(p) && AllWhiteSpace(q) && SkipSpelling(t)
    ensures ShouldTrigger(Chat(user, Str(p + t + q)))
  {
    LowerIsSkipIff(t);
    TrimOfPadded(p, t, q);
  }

  /** A comment that is not a string never triggers. */
  lemma NonStringChatNeverTriggers(user: JsValue, comment: JsValue)
    requires !comment.Str?
    ensures !ShouldTrigger(Chat(user, comment))
  {
  }

  /** A gift triggers iff its sender is set and it is not a type-1 gift with a falsy `repeatEnd`. */
  lemma GiftTriggerIff(user: JsValue, giftType: JsValue, repeatEnd: JsValue)
    ensures ShouldTrigger(Gift(user, giftType, repeatEnd))
        <==> !IsNullish(user) && (giftType != Number(1) || Truthy(repeatEnd))
  {
  }

  /** Connection lifecycle events are only logged. */
  lemma LifecycleNeverTriggers(e: Event)
    requires e.Connected? || e.Disconnected? || e.Error? || e.StreamEnd?
    ensures !ShouldTrigger(e)
  {
  }

  /** How many of `events`, handled in order, reach `sendVlcCommand`. */
  function TriggerCount(events: seq<Event>): (n: nat)
    ensures n <= |events|
  {
    if events == [] then 0
    else (if ShouldTrigger(events[0]) then 1 else 0) + TriggerCount(events[1..])
  }

  /** The handlers keep no state between events: the count over a concatenation is the sum. */
  lemma {:induction false} TriggerCountAppend(a: seq<Event>, b: seq<Event>)
    ensures TriggerCount(a + b) == TriggerCount(a) + TriggerCount(b)
    decreases |a|
  {
    if a == [] {
      assert a + b == b;
    } else {
      assert (a + b)[0] == a[0];
      assert (a + b)[1..] == a[1..] + b;
      TriggerCountAppend(a[1..], b);
    }
  }

  /** Nothing suppresses repeats: `n` identical events trigger `n` times or never. */
  lemma {:induction false} RepeatedEventTriggersEachTime(e: Event, n: nat)
    ensures TriggerCount(seq(n, _ => e)) == if ShouldTrigger(e) then n else 0
  {
    if n > 0 {
      assert seq(n, _ => e)[1..] == seq(n - 1, _ => e);
      RepeatedEventTriggersEachTime(e, n - 1);
    }
  }
}
