/**
 * The direct-message controller (src/controllers/dm/direct-message.ts): a
 * per-user conversation state and a per-user feedback state, and the
 * handlers that move a user through the anonymous-feedback dialogue.
 */
module DirectMessage {
  import opened Wrappers
  import Text
  import JsParseInt

  type UserId = string

  /** What the controller needs of a guild context: its committee and who is a member. */
  datatype GuildContext = GuildContext(id: string, name: string, hasCommittee: bool, members: set<UserId>)

  datatype ConversationState = Feedback

  datatype FeedbackStage = GuildSelect | WriteMessage | ConfirmCancel

  datatype FeedbackState = FeedbackState(stage: FeedbackStage, destination: Option<GuildContext>)

  /** The replies, by what they say. */
  datatype Reply =
    | SomethingWentWrong
    | FeedbackInvitation
    | UseServerChannels
    | NotVerified
    | Greeting(destinationName: Option<string>, options: seq<string>)
    | WritePrompt
    | InvalidOption
    | DestinationChosen(name: string)
    | NoText
    | PreviewIntro
    | Preview(content: string)
    | ConfirmQuestion
    | Cancelled

  /** The guilds a user may send feedback to, in the order the contexts are listed. */
  function Destinations(user: UserId, guilds: seq<GuildContext>): (r: seq<GuildContext>)
    ensures |r| <= |guilds|
  {
    if guilds == [] then []
    else
      var last := guilds[|guilds| - 1];
      var prior := Destinations(user, guilds[..|guilds| - 1]);
      if last.hasCommittee && user in last.members then prior + [last] else prior
  }

  /** A guild is a destination exactly when it is listed, has a committee and has the user as a member. */
  lemma {:induction false} DestinationsMembers(user: UserId, guilds: seq<GuildContext>)
    ensures forall g :: g in Destinations(user, guilds) <==> g in guilds && g.hasCommittee && user in g.members
  {
    if guilds != [] {
      var last := guilds[|guilds| - 1];
      DestinationsMembers(user, guilds[..|guilds| - 1]);
      assert forall g :: g in guilds <==> g in guilds[..|guilds| - 1] || g == last;
    }
  }

  function Names(ds: seq<GuildContext>): (r: seq<string>)
    ensures |r| == |ds| && forall i | 0 <= i < |ds| :: r[i] == ds[i].name
  {
    if ds == [] then [] else Names(ds[..|ds| - 1]) + [ds[|ds| - 1].name]
  }

  /**
   * The shape the two maps keep: a user has a conversation state exactly
   * when they have a feedback state; a feedback state is either choosing a
   * guild, with no destination yet, or writing, with one.
   */
  predicate Consistent(conversations: map<UserId, ConversationState>, feedback: map<UserId, FeedbackState>) {
    && conversations.Keys == feedback.Keys
    && forall u | u in feedback ::
         && feedback[u].stage != ConfirmCancel
         && (feedback[u].stage == WriteMessage <==> feedback[u].destination.Some?)
  }

  /**
   * `handleFeedbackGuildSelect` as written: only `NaN`, `0` and numbers
   * above the count are turned away.  A negative number gets through,
   * indexes before the list, stores `undefined` as the destination with
   * the writing stage, and then fails on the destination's name.
   */
  function ChooseGuildAsWritten(state: FeedbackState, content: string, ds: seq<GuildContext>): (FeedbackState, seq<Reply>)
  {
    var choice := JsParseInt.ParseInt(content);
    if choice.None? || choice.value == 0 || choice.value > |ds| then (state, [InvalidOption])
    else if 0 <= choice.value - 1 < |ds| then
      (FeedbackState(WriteMessage, Some(ds[choice.value - 1])), [DestinationChosen(ds[choice.value - 1].name), WritePrompt])
    else (FeedbackState(WriteMessage, None), [SomethingWentWrong])
  }

  /** Replying `-1` to the guild choice leaves a writing stage without a destination. */
  lemma NegativeChoiceBreaksState(g: GuildContext)
    ensures ChooseGuildAsWritten(FeedbackState(GuildSelect, None), "-1", [g]) ==
      (FeedbackState(WriteMessage, None), [SomethingWentWrong])
    ensures !Consistent(map["u" := Feedback], map["u" := FeedbackState(WriteMessage, None)])
  {
    MinusOne();
    var broken := map["u" := FeedbackState(WriteMessage, None)];
    assert "u" in broken && broken["u"].destination.None?;
  }

  /** As written, any reply that parses to a negative number reaches the failing branch. */
  lemma NegativeChoiceAsWritten(state: FeedbackState, content: string, ds: seq<GuildContext>)
    requires JsParseInt.ParseInt(content).Some? && JsParseInt.ParseInt(content).value < 0
    ensures ChooseGuildAsWritten(state, content, ds) == (FeedbackState(WriteMessage, None), [SomethingWentWrong])
  {
  }

  lemma MinusOne()
    ensures JsParseInt.ParseInt("-1") == Some(-1)
  {
    JsParseInt.ParseNumeral("", 1, true, "");
    assert "" + "-" + JsParseInt.Numeral(1) + "" == "-1";
  }

  /** The guild choice as intended: a number from 1 to the count. */
  function ChooseGuild(state: FeedbackState, content: string, ds: seq<GuildContext>): (FeedbackState, seq<Reply>)
  {
    var choice := JsParseInt.ParseInt(content);
    if choice.None? || choice.value < 1 || choice.value > |ds| then (state, [InvalidOption])
    else (FeedbackState(WriteMessage, Some(ds[choice.value - 1])), [DestinationChosen(ds[choice.value - 1].name), WritePrompt])
  }

  /**
   * The reply is refused, with the state unchanged, exactly when it does
   * not parse to a number from 1 to the count; otherwise a listed
   * destination is stored with the writing stage.
   */
  lemma ChooseGuildMeans(state: FeedbackState, content: string, ds: seq<GuildContext>)
    ensures var r := ChooseGuild(state, content, ds);
      && (r.1 == [InvalidOption] <==>
            JsParseInt.ParseInt(content).None? || !(1 <= JsParseInt.ParseInt(content).value <= |ds|))
      && (r.1 == [InvalidOption] ==> r.0 == state)
      && (r.1 != [InvalidOption] ==>
            && r.0.stage == WriteMessage && r.0.destination.Some? && r.0.destination.value in ds
            && r.1 == [DestinationChosen(r.0.destination.value.name), WritePrompt])
  {
  }

  /** The two agree on every reply that is not a negative number. */
  lemma ChooseGuildAgreesOffNegatives(state: FeedbackState, content: string, ds: seq<GuildContext>)
    requires JsParseInt.ParseInt(content).None? || JsParseInt.ParseInt(content).value >= 0
    ensures ChooseGuildAsWritten(state, content, ds) == ChooseGuild(state, content, ds)
  {
  }

  class DirectMessageController {
    var conversationStateMap: map<UserId, ConversationState>
    var feedbackStateMap: map<UserId, FeedbackState>

    ghost predicate Valid()
      reads this
    {
      Consistent(conversationStateMap, feedbackStateMap)
    }

    constructor ()
      ensures Valid() && conversationStateMap == map[] && feedbackStateMap == map[]
    {
      conversationStateMap, feedbackStateMap := map[], map[];
    }

    /**
     * `determineFeedbackDestinations`: the contexts with a committee whose
     * guild has the user as a member (a failed member fetch skips it).
     */
    method DetermineFeedbackDestinations(user: UserId, guilds: seq<GuildContext>) returns (ds: seq<GuildContext>)
      ensures ds == Destinations(user, guilds)
    {
      ds := [];
      for i := 0 to |guilds|
        invariant ds == Destinations(user, guilds[..i])
      {
        assert guilds[..i + 1][..i] == guilds[..i];
        if !guilds[i].hasCommittee {
          continue;
        }
        if user !in guilds[i].members {
          continue;
        }
        ds := ds + [guilds[i]];
      }
      assert guilds[..|guilds|] == guilds;
    }

    /**
     * `onMessageReceived`: a user without a conversation goes to the
     * default handler, a user in the feedback conversation to the feedback
     * handler.  `senderVerified` is what the verification lookup answers.
     */
    method OnMessageReceived(author: UserId, content: string, guilds: seq<GuildContext>, senderVerified: bool)
      returns (replies: seq<Reply>)
      requires Valid()
      modifies this
      ensures Valid()
      ensures author !in old(conversationStateMap) ==>
        forall u | u != author :: (u in feedbackStateMap <==> u in old(feedbackStateMap)) &&
          (u in feedbackStateMap ==> feedbackStateMap[u] == old(feedbackStateMap)[u])
      ensures author in old(conversationStateMap) ==>
        conversationStateMap.Keys <= old(conversationStateMap).Keys &&
        forall u | u != author && u in feedbackStateMap :: feedbackStateMap[u] == old(feedbackStateMap)[u]
      ensures forall u | u != author :: (u in conversationStateMap <==> u in old(conversationStateMap))
      ensures author !in old(conversationStateMap) ==>
        DefaultHandled(old(conversationStateMap), old(feedbackStateMap), conversationStateMap, feedbackStateMap,
          author, content, guilds, senderVerified, replies)
      ensures author in old(conversationStateMap) ==>
        FeedbackHandled(old(conversationStateMap), old(feedbackStateMap), conversationStateMap, feedbackStateMap,
          author, content, guilds, replies)
    {
      ghost var conv0, fb0 := conversationStateMap, feedbackStateMap;
      if author !in conversationStateMap {
        replies := HandleDefaultConversationState(author, content, guilds, senderVerified);
        DefaultHandledFrame(conv0, fb0, conversationStateMap, feedbackStateMap, author, content, guilds, senderVerified, replies);
      } else {
        replies := HandleFeedbackConversationState(author, content, guilds);
        FeedbackHandledFrame(conv0, fb0, conversationStateMap, feedbackStateMap, author, content, guilds, replies);
      }
    }

    /**
     * `handleDefaultConversationState`: `feedback` starts the dialogue when
     * the user has somewhere to send it (and is silently ignored
     * otherwise); anything else gets a hint that depends on whether they do.
     */
    method HandleDefaultConversationState(author: UserId, content: string, guilds: seq<GuildContext>, senderVerified: bool)
      returns (replies: seq<Reply>)
      requires Valid() && author !in conversationStateMap
      modifies this
      ensures Valid()
      ensures DefaultHandled(old(conversationStateMap), old(feedbackStateMap), conversationStateMap, feedbackStateMap,
        author, content, guilds, senderVerified, replies)
    {
      var ds := DetermineFeedbackDestinations(author, guilds);
      if Text.Trim(content) == "feedback" {
        if |ds| == 0 {
          return [];
        }
        replies := HandleFeedbackStart(author, ds, senderVerified);
      } else if |ds| > 0 {
        replies := [FeedbackInvitation];
      } else {
        replies := [UseServerChannels];
      }
    }

    /**
     * `handleFeedbackStart`: an unverified sender is turned away with no
     * state recorded; otherwise the user enters the feedback conversation,
     * choosing a guild first when there is more than one destination.
     */
    method HandleFeedbackStart(author: UserId, ds: seq<GuildContext>, senderVerified: bool) returns (replies: seq<Reply>)
      requires Valid() && author !in conversationStateMap && ds != []
      modifies this
      ensures Valid()
      ensures FeedbackStarted(old(conversationStateMap), old(feedbackStateMap), conversationStateMap, feedbackStateMap,
        author, ds, senderVerified, replies)
    {
      if !senderVerified {
        return [NotVerified];
      }
      conversationStateMap := conversationStateMap[author := Feedback];
      if |ds| > 1 {
        var options := [];
        for i := 0 to |ds|
          invariant options == Names(ds[..i])
        {
          assert ds[..i + 1][..i] == ds[..i];
          options := options + [ds[i].name];
        }
        assert ds[..|ds|] == ds;
        feedbackStateMap := feedbackStateMap[author := FeedbackState(GuildSelect, None)];
        replies := [Greeting(None, options)];
      } else {
        feedbackStateMap := feedbackStateMap[author := FeedbackState(WriteMessage, Some(ds[0]))];
        replies := [Greeting(Some(ds[0].name), []), WritePrompt];
      }
    }

    /**
     * `handleFeedbackConversationState`: `cancel` discards both entries of
     * the user; otherwise the reply goes to the handler of the user's stage.
     */
    method HandleFeedbackConversationState(author: UserId, content: string, guilds: seq<GuildContext>)
      returns (replies: seq<Reply>)
      requires Valid() && author in conversationStateMap
      modifies this
      ensures Valid()
      ensures FeedbackHandled(old(conversationStateMap), old(feedbackStateMap), conversationStateMap, feedbackStateMap,
        author, content, guilds, replies)
    {
      if Text.Trim(content) == "cancel" {
        conversationStateMap := conversationStateMap - {author};
        feedbackStateMap := feedbackStateMap - {author};
        return [Cancelled];
      }
      match feedbackStateMap[author].stage {
        case GuildSelect =>
          replies := HandleFeedbackGuildSelect(author, content, guilds);
        case WriteMessage =>
          replies := WriteMessageReplies(content);
        case ConfirmCancel =>
          assert false;
          replies := [];
      }
    }

    /** `handleFeedbackGuildSelect`, with the choice bounded below as intended. */
    method HandleFeedbackGuildSelect(author: UserId, content: string, guilds: seq<GuildContext>) returns (replies: seq<Reply>)
      requires Valid() && author in feedbackStateMap && feedbackStateMap[author].stage == GuildSelect
      modifies this
      ensures Valid()
      ensures conversationStateMap == old(conversationStateMap)
      ensures (feedbackStateMap[author], replies) == ChooseGuild(old(feedbackStateMap)[author], content, Destinations(author, guilds))
      ensures feedbackStateMap == old(feedbackStateMap)[author := feedbackStateMap[author]]
    {
      var ds := DetermineFeedbackDestinations(author, guilds);
      ghost var state := feedbackStateMap[author];
      var choice := JsParseInt.ParseInt(content);
      if choice.None? || choice.value < 1 || choice.value > |ds| {
        ChooseGuildRefused(state, content, ds);
        return [InvalidOption];
      }
      var destination := ds[choice.value - 1];
      ChooseGuildAccepted(state, content, ds);
      SetDestination(author, destination);
      replies := [DestinationChosen(destination.name), WritePrompt];
    }

    /** `feedbackStateMap.set` of the writing stage with the chosen destination. */
    method SetDestination(author: UserId, destination: GuildContext)
      requires Valid() && author in feedbackStateMap
      modifies this
      ensures Valid()
      ensures conversationStateMap == old(conversationStateMap)
      ensures feedbackStateMap == old(feedbackStateMap)[author := FeedbackState(WriteMessage, Some(destination))]
    {
      DestinationKeepsConsistent(conversationStateMap, feedbackStateMap, author, destination);
      feedbackStateMap := feedbackStateMap[author := FeedbackState(WriteMessage, Some(destination))];
    }
  }

  /**
   * What `handleDefaultConversationState` leaves behind: anything but
   * `feedback`, or `feedback` with nowhere to send it, changes no state and
   * gets the hint or nothing; `feedback` otherwise starts the dialogue.
   */
  ghost predicate DefaultHandled(conv0: map<UserId, ConversationState>, fb0: map<UserId, FeedbackState>,
    conv1: map<UserId, ConversationState>, fb1: map<UserId, FeedbackState>,
    author: UserId, content: string, guilds: seq<GuildContext>, senderVerified: bool, replies: seq<Reply>)
  {
    var ds := Destinations(author, guilds);
    && (Text.Trim(content) != "feedback" || ds == [] ==>
          conv1 == conv0 && fb1 == fb0 &&
          replies == (if Text.Trim(content) == "feedback" then []
                      else if ds != [] then [FeedbackInvitation]
                      else [UseServerChannels]))
    && (Text.Trim(content) == "feedback" && ds != [] ==>
          FeedbackStarted(conv0, fb0, conv1, fb1, author, ds, senderVerified, replies))
  }

  /**
   * What `handleFeedbackConversationState` leaves behind: `cancel` drops
   * both entries of the author; otherwise a guild choice is made by
   * `ChooseGuild`, and a message is previewed with no change of state.
   */
  ghost predicate FeedbackHandled(conv0: map<UserId, ConversationState>, fb0: map<UserId, FeedbackState>,
    conv1: map<UserId, ConversationState>, fb1: map<UserId, FeedbackState>,
    author: UserId, content: string, guilds: seq<GuildContext>, replies: seq<Reply>)
  {
    && author in fb0
    && (Text.Trim(content) == "cancel" ==>
          conv1 == conv0 - {author} && fb1 == fb0 - {author} && replies == [Cancelled])
    && (Text.Trim(content) != "cancel" && fb0[author].stage == GuildSelect ==>
          && conv1 == conv0 && author in fb1
          && (fb1[author], replies) == ChooseGuild(fb0[author], content, Destinations(author, guilds))
          && fb1 == fb0[author := fb1[author]])
    && (Text.Trim(content) != "cancel" && fb0[author].stage == WriteMessage ==>
          conv1 == conv0 && fb1 == fb0 && replies == WriteMessageReplies(content))
  }

  /** A reply outside 1..count keeps the state and is refused. */
  lemma ChooseGuildRefused(state: FeedbackState, content: string, ds: seq<GuildContext>)
    requires var choice := JsParseInt.ParseInt(content); choice.None? || choice.value < 1 || choice.value > |ds|
    ensures ChooseGuild(state, content, ds) == (state, [InvalidOption])
  {
  }

  /** A reply in 1..count picks the destination at that position, counted from 1. */
  lemma ChooseGuildAccepted(state: FeedbackState, content: string, ds: seq<GuildContext>)
    requires var choice := JsParseInt.ParseInt(content); choice.Some? && 1 <= choice.value <= |ds|
    ensures var d := ds[JsParseInt.ParseInt(content).value - 1];
      ChooseGuild(state, content, ds) == (FeedbackState(WriteMessage, Some(d)), [DestinationChosen(d.name), WritePrompt])
  {
  }

  /** Moving a user in the dialogue on to writing, with a destination, keeps the maps consistent. */
  lemma DestinationKeepsConsistent(conv: map<UserId, ConversationState>, fb: map<UserId, FeedbackState>,
    author: UserId, destination: GuildContext)
    requires Consistent(conv, fb) && author in fb
    ensures Consistent(conv, fb[author := FeedbackState(WriteMessage, Some(destination))])
  {
  }

  /** Handling a message outside a conversation touches no other user's entries. */
  lemma DefaultHandledFrame(conv0: map<UserId, ConversationState>, fb0: map<UserId, FeedbackState>,
    conv1: map<UserId, ConversationState>, fb1: map<UserId, FeedbackState>,
    author: UserId, content: string, guilds: seq<GuildContext>, senderVerified: bool, replies: seq<Reply>)
    requires DefaultHandled(conv0, fb0, conv1, fb1, author, content, guilds, senderVerified, replies)
    ensures forall u | u != author :: (u in fb1 <==> u in fb0) && (u in fb1 ==> fb1[u] == fb0[u])
    ensures forall u | u != author :: (u in conv1 <==> u in conv0)
  {
    var ds := Destinations(author, guilds);
    if Text.Trim(content) == "feedback" && ds != [] {
      assert FeedbackStarted(conv0, fb0, conv1, fb1, author, ds, senderVerified, replies);
    }
  }

  /**
   * Handling a message inside a conversation touches no other user's
   * entries and at most drops the author's.
   */
  lemma FeedbackHandledFrame(conv0: map<UserId, ConversationState>, fb0: map<UserId, FeedbackState>,
    conv1: map<UserId, ConversationState>, fb1: map<UserId, FeedbackState>,
    author: UserId, content: string, guilds: seq<GuildContext>, replies: seq<Reply>)
    requires Consistent(conv0, fb0)
    requires FeedbackHandled(conv0, fb0, conv1, fb1, author, content, guilds, replies)
    ensures conv1.Keys <= conv0.Keys
    ensures forall u | u != author && u in fb1 :: fb1[u] == fb0[u]
    ensures forall u | u != author :: (u in conv1 <==> u in conv0)
  {
    if Text.Trim(content) != "cancel" {
      match fb0[author].stage
      case GuildSelect => assert fb1 == fb0[author := fb1[author]] && conv1 == conv0;
      case WriteMessage => assert fb1 == fb0 && conv1 == conv0;
      case ConfirmCancel => assert false;
    }
  }

  /** What a feedback start leaves behind. */
  ghost predicate FeedbackStarted(conv0: map<UserId, ConversationState>, fb0: map<UserId, FeedbackState>,
    conv1: map<UserId, ConversationState>, fb1: map<UserId, FeedbackState>,
    author: UserId, ds: seq<GuildContext>, senderVerified: bool, replies: seq<Reply>)
  {
    && (!senderVerified ==> conv1 == conv0 && fb1 == fb0 && replies == [NotVerified])
    && (senderVerified && |ds| == 1 ==>
          conv1 == conv0[author := Feedback] && fb1 == fb0[author := FeedbackState(WriteMessage, Some(ds[0]))] &&
          replies == [Greeting(Some(ds[0].name), []), WritePrompt])
    && (senderVerified && |ds| > 1 ==>
          conv1 == conv0[author := Feedback] && fb1 == fb0[author := FeedbackState(GuildSelect, None)] &&
          replies == [Greeting(None, Names(ds))])
  }

  /**
   * `handleFeedbackWriteMessage`: a blank message is asked for again;
   * anything else is previewed with the confirmation question.  Neither
   * changes the stage, and no reply moves on to the confirmation stage.
   */
  function WriteMessageReplies(content: string): (r: seq<Reply>)
    ensures Text.Trim(content) == [] <==> r == [NoText]
    ensures Text.Trim(content) != [] ==> Preview(content) in r
  {
    if |Text.Trim(content)| == 0 then [NoText] else [PreviewIntro, Preview(content), ConfirmQuestion]
  }
}
