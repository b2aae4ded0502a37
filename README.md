# StudyBot core, modelled in Dafny

StudyBot is a Discord bot for a university. It maps academic majors and
courses onto Discord roles, channels and categories, and it keeps those
mappings, plus every user's course assignments, in a database. This project
models the logic that remains once the Discord and database calls are
replaced by explicit state, and proves properties of that model:

- **Platform.** One guild is a `Platform` object. It holds the live role
  and channel IDs, the child count of each category, the roles of each
  member, a counter that hands out fresh IDs, and a log of the mutating
  calls in the order they are made.
- **Stores.** Each store is a class whose fields the operations update in
  place. `ImplementStore.GuildStorageDatabase` is one guild's entry of the
  storage cache together with its stored document.
  `LegacyRoles.GuildRoleStorage` is the older per-major role map.
  `UserRecords.UserDatabase` and `LegacyUser.UserService` hold the user
  collection. `DirectMessage.DirectMessageController` holds the two
  per-user maps. `Config.ConfigService` holds the loaded configuration.
- **Operations that change state** are methods. Each `ensures` states the
  new state, usually through a specification function, and lemmas state
  what those functions promise.
- **Pure helpers** are functions with named results. This covers parsing,
  validation, URL and name building, permission lists and reset selection.
- **Exceptions.** A JavaScript exception, such as a dereference of
  `undefined` or a category ID that does not resolve, becomes an
  `Outcome.Thrown` or `Crashed` value. It is never a precondition.

The repository contains two generations of the implement code:

- The overflow-category code under `src/services/implement` is modelled by
  `MajorAllocator`, `CourseImplements` and `CourseChannels`.
- The text/voice-category code under `src/services/discord/implement` is
  modelled by `DiscordImplements`.

Both generations share one store. A major implement is either
`Overflow(categoryIds)` or `TextVoice(text, voice)`. Some files exist as two
identical copies: the two verification implement services and the two
course-selection controllers. Each is modelled once, and the older copy is
cited where a member states its behaviour.

Where the entity declarations and the code that uses them disagree, the
model follows the code:

- A major implement holds a list `categoryIds`; its declaration says
  `categoryId`.
- A course implement holds `mainChannelId` and `voiceChannelId`; its
  declaration says `channelIds`.
- The course-number parser returns a list of strings. The controllers read
  the parsed request as an object keyed by major prefix, so the controller
  model takes that object as its `numbers` parameter
  (`CourseSelection.NumbersByMajor`, an insertion-ordered dictionary).
- `src/services/implement/course/implement.ts:43-47` calls
  `createMainChannel` and `createVoiceChannel` with an extra
  verification-role argument. `src/services/implement/course/channel.ts`
  defines only `createChannelByType`. The model reads the two calls as
  `createChannelByType` with the chat and the voice type, and the extra
  argument is unused.
- `src/services/discord/role-assignment.ts:52` reads the user with
  `getUserByDiscordUserId`. `src/services/database/user.ts` does not define
  it, so the model reads it as a lookup that finds no record when the user
  is absent.
- `src/services/discord/implement/course/index.ts:33,35` calls `createMainRole`
  and `createTARole`. `src/services/discord/implement/course/role.ts` defines
  `createMainCourseRole` and `createTACourseRole`. The model reads the calls
  as those two.
- `src/services/discord/implement/major/index.ts:29,31` calls
  `createTextCategory` and `createVoiceCategory`.
  `src/services/discord/implement/major/category.ts` defines only
  `createMajorCategory`. The model reads the calls as creating a text and a
  voice category, in that order.
- `src/models/database/user.ts:14-20,34-45` declares a guild's courses as
  `{majorPrefix, number}` and has a `jailed` field. The code that uses the
  records reads and writes `{courseKey, isTA}` entries, and the model
  follows it.

Library behaviour the model abstracts:

- `localeCompare` is a total order on strings (`Text.LessEq`,
  lexicographic on code points).
- `moment` timestamps are natural-number day counts.
- The output of `querystring.stringify` is a function parameter.
- The constant `DiscordConstants.MAX_CHANNELS_PER_CATEGORY` comes from
  `src/constants/discord`, which is not part of this model. It is taken to
  be 50, Discord's documented limit.
- The course key (`course.key` and
  `CourseUtils.convertToString`, neither of which is part of this model) is
  `{prefix}-{number}`.
- A legacy guild document is seeded with `{}` for each major. The schema
  default of `src/models/database/guild-storage.ts:18` turns that into an
  empty role map, which is what `LegacyRoles` stores.

## Model

| member | source | states |
|---|---|---|
| MajorNames.GetCategoryName | src/utils/major.ts:5-11 | The category name starts with the major prefix and ends with "-chat" for the chat type and "-voice" for the voice type |
| MajorNames.CategoryNamesDistinct | src/utils/major.ts:5-11 | Two equal category names come from the same prefix and the same channel type |
| UtahVerifier.CheckPattern | src/services/verification/utah-verifier.ts:4-6 | True exactly when the trimmed input is `u` or `U` followed by exactly seven decimal digits and nothing else |
| UtahVerifier.MatchesStudentId | src/services/verification/utah-verifier.ts:5 | The anchored, case-insensitive match of `u[0-9]{7}` holds exactly when the text is eight characters, `u` or `U` then seven decimal digits |
| UtahVerifier.AllDigitsMeans | src/services/verification/utah-verifier.ts:5 | The seven-digit part of the pattern holds exactly when every character is 0-9 |
| UtahVerifier.PatternIgnoresSurroundingWhitespace | src/services/verification/utah-verifier.ts:5 | Whitespace added before or after the input never changes the verdict |
| UtahVerifier.PatternIgnoresCase | src/services/verification/utah-verifier.ts:5 | Replacing a leading `u` by `U` or the other way round never changes the verdict |
| UtahVerifier.LetterCase | src/services/verification/utah-verifier.ts:5 | The case-insensitive flag accepts exactly the two letters `u` and `U` |
| UtahVerifier.ConvertToEmailAddress | src/services/verification/utah-verifier.ts:8-10 | The address is the student ID followed by "@umail.utah.edu" |
| UtahVerifier.AddressRoundTrip | src/services/verification/utah-verifier.ts:8-10 | Dropping the domain suffix from the address gives back the student ID, so distinct IDs get distinct addresses |
| CourseParse.ParseCourseNumberList | src/utils/course.ts:2-5 | No token is empty, and no token contains whitespace, `\|`, `,`, `-` or a lower-case ASCII letter |
| CourseParse.Pieces | src/utils/course.ts:3 | There is at least one piece, and no piece contains a separator character |
| CourseParse.NonEmpty | src/utils/course.ts:4 | The filter keeps only non-empty pieces, each taken from its input |
| CourseParse.TokensSplitAt | src/utils/course.ts:3-4 | The tokens on either side of a separator are found independently and concatenated in order |
| CourseParse.TokensOfRun | src/utils/course.ts:3-4 | A non-empty run without separators is exactly one token |
| CourseParse.TokensOfSeparators | src/utils/course.ts:3-4 | Text made only of separators gives no tokens |
| CourseParse.TrimKeepsTokens | src/utils/course.ts:3 | Trimming before the split never changes the tokens, since whitespace separates anyway |
| CourseParse.ParseOfSeparators | src/utils/course.ts:2-5 | Input made only of separators parses to the empty list |
| CourseParse.WhitespaceSeparates | src/utils/course.ts:3 | Every whitespace character is a separator of the split pattern |
| Route.RemoveLeadingAndTrailingSlashes | src/utils/route.ts:24-36 | Null or undefined input gives ""; otherwise the input is the result with at most one `/` put back at the start and at most one at the end, a leading one exactly when the input starts with `/` |
| Route.StripRoundTrip | src/utils/route.ts:28-35 | A path with no slash at either end, wrapped in optional single slashes, strips back to itself |
| Route.StripOfBare | src/utils/route.ts:28-35 | Input with no leading or trailing slash is returned unchanged |
| Route.GeneratePublicUrl | src/utils/route.ts:11-22 | The URL starts with the public URI |
| Route.PublicUrlShape | src/utils/route.ts:11-22 | With a stripped base name and a path without end slashes, the URL is the public URI, "/" + base name when that is non-empty, "/" + path, then "?" + the query only when there is one; without a base name the middle part is absent |
| Text.TrimStart | src/services/verification/utah-verifier.ts:5 | The result is a suffix of the input that does not start with whitespace, and everything removed is whitespace |
| Text.TrimEnd | src/services/verification/utah-verifier.ts:5 | The result is a prefix of the input that does not end with whitespace, and everything removed is whitespace |
| Text.TrimIgnoresSurroundingWhitespace | src/services/verification/utah-verifier.ts:5 | `trim()` gives the same result whatever whitespace surrounds the text |
| Text.ToLower | src/controllers/channel/course-selection.ts:15 | Lower-casing keeps the length and maps A-Z to a-z character by character, leaving other characters as they are |
| Text.LessEqReflexive | src/services/database/user.ts:56 | The order that stands for `localeCompare` is reflexive |
| Text.LessEqTotal | src/services/database/user.ts:56 | The order is total |
| Text.LessEqAntisymmetric | src/services/database/user.ts:56 | The order is antisymmetric |
| Text.LessEqTransitive | src/services/database/user.ts:56 | The order is transitive |
| Sorting.SortBy | src/services/database/user.ts:54-56 | Sorting by a key under `localeCompare` gives a permutation of the input, of the same length, ordered by the key |
| Courses.Key | src/services/database/user.ts:49 | The course key is the major prefix, then `-`, then the course number |
| Courses.FindAssignment | src/services/discord/role-assignment.ts:72 | `find` by course key gives none exactly when no entry has the key, and otherwise the first entry with that key |
| Dict.IndexOf | src/controllers/channel/course-selection.ts:152-163 | The position of a key is that of the first entry holding it, and none exactly when no entry holds it |
| Dict.Keys | src/controllers/channel/course-selection.ts:88 | `Object.keys` lists every entry's key in insertion order; a key is listed exactly when it is present |
| Dict.Set | src/controllers/channel/course-selection.ts:157-160 | Setting a key makes it map to the value and changes no other key; existing positions keep their keys, at most one entry is added, a new key adds one, and distinct keys stay distinct |
| Dict.Delete | src/controllers/channel/course-selection.ts:162 | Deleting a key removes it and changes no other key; an absent key leaves the dictionary as it was, a present one shortens it by one |
| Dict.ToMap | src/services/course.ts:109 | A dictionary without repeated keys, read as a plain object: the same keys and the same values |
| JsParseInt.DigitValue | src/controllers/dm/direct-message.ts:143 | A digit's value is below its base |
| JsParseInt.LeadingDigits | src/controllers/dm/direct-message.ts:143 | The longest prefix of the input made of digits of the base: all its characters are digits, and the next character is not |
| JsParseInt.DecimalDigit | src/controllers/dm/direct-message.ts:143 | Every decimal digit value has a character that reads back as that value |
| JsParseInt.Numeral | src/controllers/dm/direct-message.ts:143 | The decimal numeral of a number is a non-empty string of digits with no leading zero for a positive number |
| JsParseInt.NumeralValue | src/controllers/dm/direct-message.ts:143 | The digits of a numeral evaluate back to its number |
| JsParseInt.ParseUnsignedNumeral | src/controllers/dm/direct-message.ts:143 | A numeral followed by nothing, or by a character that is neither a digit nor `x`/`X`, reads as its number |
| JsParseInt.ParseIntAfterWhitespace | src/controllers/dm/direct-message.ts:143 | Leading whitespace never changes what `parseInt` returns |
| JsParseInt.ParseIntOfSign | src/controllers/dm/direct-message.ts:143 | Text starting with a digit parses to its unsigned value, and with a minus sign in front to the negated value |
| JsParseInt.ParseIntSigned | src/controllers/dm/direct-message.ts:143 | Whitespace, an optional minus sign, then text starting with a digit parse to the signed value of that text |
| JsParseInt.ParseNumeral | src/controllers/dm/direct-message.ts:143 | Whitespace, an optional minus sign, a numeral and a tail that is neither a digit nor `x`/`X` parse to the signed number, so "-1" parses to -1 |
| Config.DatabaseError | src/services/config.ts:57-75 | The database check passes exactly when the config is present with address and name given, and with username and password given when auth is on |
| Config.WebError | src/services/config.ts:77-89 | The web check passes exactly when a web config is present and, if it is enabled, has a port |
| Config.SmtpError | src/services/config.ts:91-113 | The SMTP check passes exactly when the config is present with host, port, user, pass, fromAddress and fromName all given |
| Config.VerificationError | src/services/config.ts:115-132 | The check passes exactly when the config is present and, if enabled, names a known verifier type and has an SMTP config that passes its check; a missing SMTP config gets the verification error, not the SMTP one |
| Config.GuildError | src/services/config.ts:141-162 | A guild passes exactly when its majors are a non-empty array and its moderator, course-selection and verification channel IDs are given |
| Config.FirstGuildError | src/services/config.ts:141-162 | None exactly when every guild passes; otherwise the error of a guild such that every guild before it in key order passes |
| Config.FirstErrorNoneIffAcceptable | src/services/config.ts:43-55 | The check chain passes exactly on configurations meeting every requirement, stated setting by setting |
| Config.SmtpIgnoredWhenVerificationDisabled | src/services/config.ts:115-132 | With verification disabled, the SMTP settings never change the outcome |
| Config.TokenCheckedFirst | src/services/config.ts:43-46 | A missing token is the error whatever else is wrong |
| Config.Sanitized | src/services/config.ts:86-87 | Only the web config may differ from the input |
| Config.ConfigService.ValidateWebConfig | src/services/config.ts:77-89 | Returns the web check's error, and rewrites the base name in place only when the check passes |
| Config.ConfigService.ValidateGuildsConfig | src/services/config.ts:134-163 | Absent guilds and an array of guilds are errors; for an object, the first failing guild in key order decides |
| Config.ConfigService.ValidateConfig | src/services/config.ts:43-55 | Returns the first error of the token, database, web, verification and guild checks; the base name is stripped exactly when the token, database and web checks pass, and the config is otherwise left as it was |
| Reset.UsersToReset | src/services/reset.ts:23-26 | A stored user is selected exactly when they have data for the guild with at least one course, and their last update is more than the grace period ago |
| Reset.UserIds | src/services/reset.ts:27 | The IDs of the selected users, position by position |
| Reset.MembersToReset | src/services/reset.ts:32-34 | A fetched member is kept exactly when its ID was selected |
| Reset.ResetCount | src/services/reset.ts:46 | The count returned is at most the number of members fetched |
| Reset.ResetMembership | src/services/reset.ts:23-34 | A member is reset exactly when it was fetched and some stored user with its ID has stale courses in the guild |
| Reset.CountAtMostSelected | src/services/reset.ts:36-38 | With no member fetched twice, the count never exceeds the number of selected users, so the warning branch only falls short |
| CourseService.FindByNumber | src/services/course.ts:74 | None exactly when no course has the number; otherwise the first course that has it |
| CourseService.GetCourseFromNumber | src/services/course.ts:64-76 | Throws exactly when the major is missing from the catalog; an empty course list accepts any number as a course of that major; otherwise a course is found exactly when one in the list has the lower-cased number, and it is such a course |
| CourseService.PartitionSizes | src/services/course.ts:92-103 | Every number lands in exactly one of the two lists, so their lengths add up to the number of inputs |
| CourseService.PartitionSources | src/services/course.ts:92-103 | Every valid course is the resolution of a given number, and every invalid name is `{prefix}-{number}` for a given number that did not resolve |
| CourseService.PartitionOfEmptyList | src/services/course.ts:66-71 | With an empty course list, number i becomes the i-th valid course, and no name is invalid |
| CourseService.GetCoursesFromNumberList | src/services/course.ts:86-104 | Throws exactly when a non-empty list is given for a major missing from the catalog; otherwise the two push loops compute the reference partition |
| CourseService.GetCoursesFromNumberListsByMajor | src/services/course.ts:106-121 | Rejects exactly when some prefix's numbers reject; otherwise one resolution per input prefix, keyed by it, equal to that prefix's partition |
| CourseSelection.Dispatch | src/controllers/channel/course-selection.ts:15-66 | The lower-cased message starting with "join" is a join; failing that, "leave" is a leave; failing both, "ta" is a TA toggle; anything else gets help |
| CourseSelection.DispatchIgnoresCase | src/controllers/course-selection.ts:20-72 | Lower-casing a message never changes its action |
| CourseSelection.Union | src/controllers/channel/course-selection.ts:160 | `_.union` holds exactly the values of either list, each once |
| CourseSelection.Disambiguate | src/controllers/channel/course-selection.ts:151-167 | Without a blank key the numbers are unchanged; with one and several majors the answer is false; with none it throws; with one major the blank key is removed, the major's numbers become the blank numbers or their union with them, and other keys are unchanged |
| CourseSelection.GetInvalidMajors | src/controllers/channel/course-selection.ts:138-143 | A prefix is returned exactly when it is given, non-empty and not configured |
| CourseSelection.GetInvalidMajorsAppend | src/controllers/course-selection.ts:143-148 | The filter keeps order: the invalid prefixes of a concatenation are those of each part |
| CourseSelection.CollectedSources | src/controllers/channel/course-selection.ts:100-108 | Every collected course and invalid name comes from a number under one of the keys, read under that key's major |
| CourseSelection.AcceptedCoursesRequested | src/controllers/channel/course-selection.ts:70-131 | An accepted request holds at least one valid course, and every valid course and invalid name comes from a number of the disambiguated request |
| CourseSelection.UnknownMajorRejected | src/controllers/course-selection.ts:92-96 | An unconfigured prefix is named in the rejection, when there are no blank numbers or exactly one major |
| CourseSelection.JoinOrLeaveCourses | src/controllers/channel/course-selection.ts:70-131 | The outcome is the reference `Requested`; the courses are written exactly when the request gets past every check before the none-valid test, so an all-invalid request still writes, with no courses |
| CourseSelection.JoinOrLeaveKeyed | src/controllers/channel/course-selection.ts:87-131 | From the prefix check on, the outcome is `RequestedFor`, and the write happens exactly on the accepted and none-valid outcomes |
| CourseSelection.CheckPrefixesAndLookUp | src/controllers/channel/course-selection.ts:87-108 | A refusal is the reference outcome and is not one that writes; otherwise the reference outcome is none-valid or accepted, depending on whether a valid course was found |
| CourseSelection.WriteCourses | src/controllers/channel/course-selection.ts:111-117 | The record becomes the join's added courses or the leave's removed courses of the member |
| CourseSelection.LookUpCourses | src/controllers/channel/course-selection.ts:94-108 | Rejects exactly when some prefix rejects; otherwise the resolutions of all prefixes, concatenated in key order |
| CourseSelection.CollectResolutions | src/controllers/channel/course-selection.ts:102-108 | The push loop over the keys computes the concatenated resolutions |
| CourseSelection.CollectedSnoc | src/controllers/channel/course-selection.ts:102-108 | One more key appends its resolution to what came before |
| CourseSelection.CourseNames | src/controllers/channel/course-selection.ts:19 | The course keys of the courses, position by position |
| CourseSelection.Answer | src/controllers/channel/course-selection.ts:18-29 | A crash sends no reply; otherwise exactly one success or failure reply for the action |
| CourseSelection.OnMessageReceived | src/controllers/channel/course-selection.ts:14-67 | Help for an unknown request, with nothing written; otherwise the queued notice, then the answer to the reference outcome; a join or leave writes exactly the reference write; a `ta` request makes the join write and, when accepted, then flips the TA flag of its valid courses (`TAToggled`); a request that does not reach the write leaves the store unchanged |
| DirectMessage.Destinations | src/controllers/dm/direct-message.ts:177-194 | There are never more destinations than listed guilds |
| DirectMessage.DestinationsMembers | src/controllers/dm/direct-message.ts:177-194 | A guild is a destination exactly when it is listed, has a committee and has the user as a member |
| DirectMessage.Names | src/controllers/dm/direct-message.ts:118-120 | The guild names of the destinations, position by position |
| DirectMessage.NegativeChoiceBreaksState | src/controllers/dm/direct-message.ts:144-151 | As written, the reply "-1" with one destination leaves the writing stage with no destination and the error reply, a state the controller's invariant rules out |
| DirectMessage.ChooseGuildMeans | src/controllers/dm/direct-message.ts:141-154 | The reply is refused, with the state unchanged, exactly when it does not parse to a number from 1 to the count; otherwise a listed destination is stored with the writing stage, and its name and the write prompt are sent |
| DirectMessage.ChooseGuildRefused | src/controllers/dm/direct-message.ts:143-147 | A reply that is not a number from 1 to the count keeps the state and gets the invalid-option reply |
| DirectMessage.ChooseGuildAccepted | src/controllers/dm/direct-message.ts:149-153 | A reply from 1 to the count stores the destination at that position, counted from 1, with the writing stage, and sends its name and the write prompt |
| DirectMessage.NegativeChoiceAsWritten | src/controllers/dm/direct-message.ts:144-151 | As written, every reply that parses to a negative number passes the guard and ends in the error reply with no destination stored |
| DirectMessage.ChooseGuildAgreesOffNegatives | src/controllers/dm/direct-message.ts:143-147 | The corrected and the as-written choice agree on every reply that does not parse to a negative number |
| DirectMessage.WriteMessageReplies | src/controllers/dm/direct-message.ts:156-175 | A blank message gets exactly the no-text reply; anything else gets a preview of the message |
| DirectMessage.DefaultHandledFrame | src/controllers/dm/direct-message.ts:37-57 | Handling a message outside a conversation leaves every other user's conversation and feedback entries as they were |
| DirectMessage.FeedbackHandledFrame | src/controllers/dm/direct-message.ts:59-86 | Handling a message inside the conversation adds no conversation, at most drops the author's, and leaves other users' feedback entries as they were |
| DirectMessage.DirectMessageController.constructor | src/controllers/dm/direct-message.ts:18-20 | Both maps start empty |
| DirectMessage.DirectMessageController.DetermineFeedbackDestinations | src/controllers/dm/direct-message.ts:177-194 | The loop computes `Destinations` |
| DirectMessage.DirectMessageController.OnMessageReceived | src/controllers/dm/direct-message.ts:22-35 | An author with no conversation is handled as `DefaultHandled` states, one in the feedback conversation as `FeedbackHandled` states; the map invariant is kept and no other user's conversation or feedback state changes |
| DirectMessage.DirectMessageController.HandleDefaultConversationState | src/controllers/dm/direct-message.ts:37-57 | `DefaultHandled`: "feedback" with no destination changes nothing and says nothing; any other text changes nothing and gets the invitation or the hint to use the server channels, by whether there is a destination; "feedback" with a destination starts the dialogue |
| DirectMessage.DirectMessageController.HandleFeedbackStart | src/controllers/dm/direct-message.ts:88-135 | The feedback start: an unverified sender gets no state; one destination gives the writing stage with it; several give the guild-choice stage with none |
| DirectMessage.DirectMessageController.HandleFeedbackConversationState | src/controllers/dm/direct-message.ts:59-86 | `FeedbackHandled`: "cancel" deletes both entries of the user; otherwise the guild-choice stage runs the corrected choice and the writing stage replies without changing any state |
| DirectMessage.DirectMessageController.SetDestination | src/controllers/dm/direct-message.ts:149-151 | The author's entry becomes the writing stage with the chosen destination; nothing else changes and the maps stay consistent |
| DirectMessage.DirectMessageController.HandleFeedbackGuildSelect | src/controllers/dm/direct-message.ts:141-154 | The user's feedback state and the replies are those of the corrected choice, and no other entry changes |
| MajorAllocator.FindCategoryIndex | src/services/implement/major/implement.ts:68-83 | The least index from the current one whose category has room, or the list length when none has: every category before it resolves and is full; a throw means some category from the current index on does not resolve, all before it being full |
| MajorAllocator.CreateEmptyMajorImplement | src/services/implement/major/implement.ts:28-36 | The new major implement has no categories and no course implements, and exactly it is stored under the prefix |
| MajorAllocator.CreateCategories | src/services/implement/major/implement.ts:96-100 | The loop creates n categories with consecutive fresh IDs, each empty, logs them in order and returns their IDs; roles, parents and member roles are untouched |
| MajorAllocator.CreateNextCategory | src/services/implement/major/implement.ts:97-99 | One loop step: category start + i is created and the description of the first i creations extends to i + 1 |
| MajorAllocator.ToCreate | src/services/implement/major/implement.ts:94 | The list grows to the larger of its length and the count, so max(0, count - length) categories are created |
| MajorAllocator.ScaleOutCategories | src/services/implement/major/implement.ts:92-103 | Succeeds exactly when the major implement exists with a category list; then the old IDs stay as a prefix, exactly max(0, count - length) fresh IDs are appended and created, and the implement is stored; a throw leaves store and platform unchanged |
| MajorAllocator.EnsureMajorImplement | src/services/implement/major/implement.ts:47-50 | The major implement is stored afterwards: an existing one is returned with nothing changed, otherwise an empty one is created and only its categories change |
| MajorAllocator.GetCategoryIdForNewCourseImplement | src/services/implement/major/implement.ts:46-57 | The returned category resolves, belongs to the major's list and has room for the course's two channels within the reserved capacity; only the major's categories change; at most one category is created; a throw changes nothing |
| MajorAllocator.TakeCategory | src/services/implement/major/implement.ts:55-56 | Scaling out to index + 1 creates a category exactly when the index is past the end, and the category at the index, which has room, is returned |
| MajorAllocator.ScaleOutByAtMostOne | src/services/implement/major/implement.ts:55 | Scaling out to include an index at most the length creates nothing when the index is in the list and exactly one category when it is just past the end |
| MajorAllocator.DeleteMajorImplementIfEmpty | src/services/implement/major/implement.ts:105-119 | Changes no stored state, since the removal code is commented out |
| MajorAllocator.SortMajorImplement | src/services/implement/major/implement.ts:127-143 | Changes no stored state, since the sorting code is commented out |
| MajorAllocator.CreateChannelPositionsByName | src/services/implement/major/implement.ts:145-154 | A permutation of the input channels, ordered by name, with positions 0 to n-1 in that order |
| ImplementStore.CourseLookup | src/services/database/guild-storage.ts:64-70 | Absent when the major implement is absent; otherwise present exactly when the major holds the course key, and then its entry |
| ImplementStore.SetMajor | src/services/database/guild-storage.ts:52-62 | One prefix is set or deleted; every other prefix and the verification implement are unchanged |
| ImplementStore.SetCourse | src/services/database/guild-storage.ts:72-87 | The document is unchanged when the major implement is absent; otherwise only that course key of that major is set or deleted, and the majors, their categories and the verification implement are kept |
| ImplementStore.GuildStorageDatabase.FindOrCreateGuildStorage | src/services/database/guild-storage.ts:12-36 | The cached storage when present, else the stored document, else a new empty one; the result is saved and cached either way |
| ImplementStore.GuildStorageDatabase.Save | src/services/database/guild-storage.ts:42-44 | The storage is saved, cached and seen by every later operation |
| ImplementStore.GuildStorageDatabase.GetMajorImplement | src/services/database/guild-storage.ts:46-50 | The lookup of the prefix, with the storage unchanged and now cached |
| ImplementStore.GuildStorageDatabase.SetMajorImplement | src/services/database/guild-storage.ts:52-62 | The storage becomes `SetMajor` of the old one |
| ImplementStore.GuildStorageDatabase.GetCourseImplement | src/services/database/guild-storage.ts:64-70 | The lookup of the course's key in its major, with the storage unchanged and now cached |
| ImplementStore.GuildStorageDatabase.SetCourseImplement | src/services/database/guild-storage.ts:72-87 | The storage becomes `SetCourse` of the old one, and the error is logged exactly when the major implement is absent |
| ImplementStore.GuildStorageDatabase.GetVerificationImplement | src/services/database/guild-storage.ts:89-92 | The stored verification implement, with the storage unchanged and now cached |
| ImplementStore.GuildStorageDatabase.SetVerificationImplement | src/services/database/guild-storage.ts:94-98 | Only the verification implement changes |
| ImplementStore.SetThenGetVerificationImplement | src/services/database/guild-storage.ts:89-98 | A read after a write of the verification implement returns what was written, and the major implements are untouched |
| ImplementStore.OnlyCategoriesChangedKeepsCourses | src/services/database/guild-storage.ts:52-70 | Changing only a major's categories, as scaling out does, changes no course lookup |
| VerificationImplements.GetVerificationImplementIfExists | src/services/implement/verification/implement.ts:16-22 | The stored implement, or none when nothing is stored; the storage is unchanged |
| VerificationImplements.CreateVerificationImplement | src/services/implement/verification/implement.ts:24-34 | Exactly one fresh role is created and logged, and only the verification implement changes, to that role |
| VerificationImplements.GetOrCreateVerificationImplement | src/services/implement/verification/implement.ts:8-14 | Afterwards a verification implement is stored and returned: the existing one with no platform change, or a new one with exactly one fresh role created |
| VerificationImplements.GetOrCreateTwice | src/services/discord/implement/verification/implement.ts:8-14 | Two calls in a row return the same role, and at most one role creation is logged |
| CourseChannels.Topic | src/services/implement/course/channel.ts:16-26 | A voice channel has no topic; a chat channel's topic is ":information_source: " followed by the title when the title is non-empty, and "" otherwise |
| CourseChannels.GenerateChannelPermissionsByType | src/services/implement/course/channel.ts:53-129 | @everyone, the main role, the TA role and the moderator role, then the committee role exactly when one is configured (4 or 5 entries); every entry after the first denies nothing and allows viewing |
| CourseChannels.ChannelOptionsFor | src/services/implement/course/channel.ts:28-37 | Type "text" or "voice", the topic, position 0 and the generated overwrites |
| CourseChannels.OnlyCourseMembersAndStaffView | src/services/implement/course/channel.ts:61-124 | Under Discord's overwrite rules, a member can see a course channel of either kind exactly when they hold the main, TA, moderator or committee role |
| CourseChannels.NoInvitesToChat | src/services/implement/course/channel.ts:61-92 | Nobody may create invites to a chat channel |
| CourseChannels.ChatModerationIsTAOnly | src/services/implement/course/channel.ts:61-92 | In a chat channel a member may manage messages exactly when their guild-wide permissions allow it or they hold the TA role |
| CourseChannels.VoiceRights | src/services/implement/course/channel.ts:93-125 | The overwrites of a voice channel resolve SPEAK and STREAM for every member, whatever their roles (using them still needs the view right, which `OnlyCourseMembersAndStaffView` limits); mute, deafen and priority speaker resolve exactly from guild-wide permissions or the TA role |
| CourseChannels.CreateChannelByType | src/services/implement/course/channel.ts:8-41 | One fresh channel is created under the given category, logged with the options for its type; the category gains one child when it resolves |
| CourseChannels.ResetChannelPermissionsByType | src/services/implement/course/channel.ts:43-51 | The overwrites written are those channel creation uses, and nothing else changes |
| CourseImplements.GetCourseImplementIfExists | src/services/implement/course/implement.ts:21-27 | The stored course implement, with the storage unchanged |
| CourseImplements.PrepareCategory | src/services/implement/course/implement.ts:30-31 | A category that resolves and has room, a stored verification implement and major implement; only setup calls are made and no course lookup changes; a throw changes nothing |
| CourseImplements.CreateCourseResources | src/services/implement/course/implement.ts:33-47 | The log gains the main role, TA role, chat channel and voice channel creations in that order; both channels are fresh and under the category, which gains two children; both roles are fresh |
| CourseImplements.CreateCourseImplement | src/services/implement/course/implement.ts:29-59 | The log gains only setup calls, then exactly the four creations, in a category within capacity; the four IDs are stored under the course key and no other course lookup changes; a throw leaves the store and the platform unchanged |
| CourseImplements.GetOrCreateCourseImplement | src/services/implement/course/implement.ts:13-19 | An existing implement is returned with nothing created or stored; otherwise the result is stored under the course key, and no other course lookup changes; a throw leaves the store and the platform unchanged |
| CourseImplements.DeleteCourseResources | src/services/implement/course/implement.ts:71-79 | Both channels, then both roles are deleted, and nothing but deletions is logged; it succeeds exactly when all four IDs resolve, and members lose only deleted roles |
| CourseImplements.DeleteCourseImplementIfEmpty | src/services/implement/course/implement.ts:61-83 | Nothing changes when there is no implement or some user still has the course; otherwise the four deletions in order and the entry removed, or a throw with the storage unchanged when an ID does not resolve |
| DiscordImplements.GetMajorImplementIfExists | src/services/discord/implement/major/index.ts:18-24 | The stored major implement, with the storage unchanged |
| DiscordImplements.CreateMajorImplement | src/services/discord/implement/major/index.ts:26-41 | Exactly two fresh categories, text then voice, are created and logged, and the implement holding them with no course implements is stored under the prefix |
| DiscordImplements.GetOrCreateMajorImplement | src/services/discord/implement/major/index.ts:10-16 | Afterwards a major implement is stored and returned: the existing one with no platform change, or a new one whose two categories are created; no course lookup changes |
| DiscordImplements.DeleteMajorImplementIfEmpty | src/services/discord/implement/major/index.ts:43-60 | Nothing changes when the implement is absent or holds a course implement; otherwise both categories are deleted and the entry removed, or a throw with the storage unchanged when a category does not resolve; only channel deletions are logged |
| DiscordImplements.GetCourseImplementIfExists | src/services/discord/implement/course/index.ts:20-26 | The stored course implement, with the storage unchanged |
| DiscordImplements.ParentFor | src/services/discord/implement/course/index.ts:37-39 | A chat channel goes under the text category and a voice channel under the voice category; the overflow shape has neither |
| DiscordImplements.CourseCalls | src/services/discord/implement/course/index.ts:32-39 | Four calls, all creations |
| DiscordImplements.CreateCourseResources | src/services/discord/implement/course/index.ts:31-39 | The log gains exactly the four course creation calls |
| DiscordImplements.CreateCourseImplement | src/services/discord/implement/course/index.ts:28-50 | The log gains only creations and ends with the four course calls, preceded by nothing but the major's own creation; the four IDs are stored and no other course lookup changes |
| DiscordImplements.GetOrCreateCourseImplement | src/services/discord/implement/course/index.ts:12-18 | Afterwards the course implement is stored and returned: an existing one with no platform change; only creations are logged and no other course lookup changes |
| DiscordImplements.DeleteCourseImplementIfEmpty | src/services/discord/implement/course/index.ts:52-74 | Nothing changes when there is no implement or some user still has the course; a throw with the storage unchanged when an ID does not resolve; otherwise the four deletions come first and the entry is removed; then, when the major has no course implement left, it is removed too if both its categories resolve, and the run throws if not; only deletions are logged |
| LegacyRoles.SeededContents | src/services/guild-storage.ts:16-23 | A new document holds each configured prefix once, with an empty role map, and no other prefix |
| LegacyRoles.AllRolesLookup | src/services/guild-storage.ts:27-37 | A course key is in the union exactly when some major has it, and it maps to the role of the last major that has it |
| LegacyRoles.GuildRoleStorage.FindOrCreateGuildStorage | src/services/guild-storage.ts:8-25 | The stored document, or one seeded by the loop over the prefixes; either way it is stored and returned |
| LegacyRoles.GuildRoleStorage.GetAllRoles | src/services/guild-storage.ts:27-37 | The nested loops compute the union of the per-major maps |
| LegacyRoles.SetAll | src/services/guild-storage.ts:31-33 | The inner loop sets every entry of one major's map over what was collected |
| LegacyRoles.GuildRoleStorage.GetRolesForMajor | src/services/guild-storage.ts:39-44 | The role map of the major; a major without an entry throws |
| LegacyRoles.GuildRoleStorage.AddRole | src/services/guild-storage.ts:46-50 | Sets the course key to the role in that major and changes no other major; a major without an entry throws and nothing changes |
| LegacyRoles.GuildRoleStorage.RemoveRole | src/services/guild-storage.ts:52-56 | Deletes the course key in that major and changes no other major; a major without an entry throws and nothing changes |
| LegacyRoles.GetCourseRoleIfExists | src/services/role.ts:17-34 | A missing major throws; a stored ID that resolves is returned; one that does not is removed from storage and nothing is returned; no key, nothing returned |
| LegacyRoles.CreateCourseRole | src/services/role.ts:46-59 | One fresh role is created and logged, and it is recorded under the course's key when the major has an entry |
| LegacyRoles.GetCourseRole | src/services/role.ts:8-15 | Succeeds exactly when the major has an entry; then the returned role is live and stored under the course's key, and an existing live role is returned with no platform change |
| LegacyRoles.GetExistingRoleIdsForCourses | src/services/role.ts:36-44 | One entry per course in input order: the role of its key in the union, or none |
| LegacyUser.Numbers | src/services/user.ts:28 | The numbers of the courses, position by position |
| LegacyUser.AppendMissing | src/services/user.ts:33-38 | The existing numbers stay as a prefix; the result holds exactly the old and the given numbers; a list without duplicates gains none |
| LegacyUser.AppendMissingOfPresent | src/services/user.ts:33-38 | Numbers already present add nothing |
| LegacyUser.WithoutNumbers | src/services/user.ts:59 | A number is kept exactly when it was listed and matches no course; the list never grows |
| LegacyUser.WithoutNumbersAppend | src/services/user.ts:59 | The filter keeps order: filtering a concatenation filters each part |
| LegacyUser.WithoutNumbersOfDisjoint | src/services/user.ts:59 | Nothing is dropped when no number matches |
| LegacyUser.UserService.FindOrCreateUser | src/services/user.ts:10-20 | The stored user, unchanged; or a new one with only the ID set, now stored |
| LegacyUser.UserService.AddCoursesToMember | src/services/user.ts:22-46 | Without guild data, the given numbers in order, duplicates kept, with a fresh timestamp; otherwise only missing numbers are appended and the timestamp is left alone |
| LegacyUser.UserService.AppendNumbers | src/services/user.ts:33-38 | The `forEach` computes `AppendMissing` |
| LegacyUser.UserService.RemoveCoursesFromMember | src/services/user.ts:48-66 | Without guild data, an empty list with a fresh timestamp; otherwise every matching number is dropped and the timestamp is left alone |
| UserRecords.NewUser | src/services/database/user.ts:19-22 | A new user has only its ID: no guild data, unverified, not banned, no student ID and no code |
| UserRecords.FoundOrCreated | src/services/database/user.ts:16-37 | The stored user or a new one; with a guild, that guild's data exists afterwards, kept when present and empty when created; every other guild's data is untouched |
| UserRecords.FirstByKey | src/services/database/user.ts:55 | Each key not yet seen appears once, with its first entry, and every entry comes from the input |
| UserRecords.UnionByKey | src/services/database/user.ts:55 | `_.unionBy` holds every key of either list once; a key of the first list keeps its entry there, and a key only in the second its first entry there |
| UserRecords.PermutationKeepsKeys | src/services/database/user.ts:56 | Reordering keeps the key set, distinct keys and the entry of each key |
| UserRecords.NewAssignments | src/services/database/user.ts:46-51 | Each course's key with TA false, position by position |
| UserRecords.AddedCourses | src/services/database/user.ts:46-56 | The union of the old keys and the course keys, each once, sorted by key; old entries keep their TA flag and new ones are not TA |
| UserRecords.WithoutKeys | src/services/database/user.ts:66-67 | Exactly the entries whose key is not removed, each taken from the input |
| UserRecords.RemovedCourses | src/services/database/user.ts:66-68 | No removed key remains, every other old entry is kept unchanged, nothing is added, and the list is sorted by key |
| UserRecords.ToggledCourses | src/services/database/user.ts:100-104 | The loop computes `Toggled`: same length and keys, with the TA flag flipped exactly where the key is given |
| UserRecords.ToggleKeepsKeys | src/services/database/user.ts:100-104 | Toggling never adds or removes a key |
| UserRecords.Toggled | src/services/database/user.ts:100-104 | The same length and keys; the TA flag flips exactly where the key is given |
| UserRecords.ToggledTwice | src/services/database/user.ts:100-104 | Toggling the same keys twice gives back the list |
| UserRecords.ToggledOfAbsent | src/services/database/user.ts:100-104 | Toggling keys the list does not hold changes nothing |
| UserRecords.WithCourses | src/services/database/user.ts:54-57 | Only the guild's course list and its update time change |
| UserRecords.UserDatabase.GetUserIfExists | src/services/database/user.ts:39-41 | The stored user, or none exactly when absent |
| UserRecords.UserDatabase.FindOrCreateUser | src/services/database/user.ts:16-37 | The record becomes `FoundOrCreated` and is stored |
| UserRecords.UserDatabase.AddCoursesToMember | src/services/database/user.ts:43-59 | The member's list for the guild becomes `AddedCourses` of the old one, with the update time refreshed |
| UserRecords.UserDatabase.RemoveCoursesFromMember | src/services/database/user.ts:61-71 | The member's list for the guild becomes `RemovedCourses` of the old one, with the update time refreshed |
| UserRecords.UserDatabase.RemoveAllCoursesFromMember | src/services/database/user.ts:73-80 | The member's list for the guild becomes empty, with the update time refreshed |
| UserRecords.UserDatabase.SetBanned | src/services/database/user.ts:82-86 | Only the ban flag of the found or created record changes |
| UserRecords.UserDatabase.LeaveGuild | src/services/database/user.ts:88-93 | Only that guild's entry of the found or created record is deleted |
| UserRecords.UserDatabase.ToggleTAStatusForMember | src/services/database/user.ts:95-107 | The member's list for the guild becomes `Toggled` of the found or created one, with the update time refreshed; no entry is added, removed or reordered, and no other user or guild changes |
| UserRecords.UserDatabase.UsersByCourse | src/services/database/user.ts:109-114 | Exactly the users whose data for the guild holds the course key |
| UserRecords.UserDatabase.GenerateAndStoreVerificationCode | src/services/database/user.ts:116-126 | Status CODE_SENT with the student ID and the code stored, and the same code returned |
| UserRecords.UserDatabase.SetUserVerified | src/services/database/user.ts:133-141 | Status VERIFIED and the code cleared; the student ID is replaced only when a non-empty one is given, and nothing else changes |
| RoleAssignment.ChangesFrame | src/services/discord/role-assignment.ts:69-91 | Two stores that agree on the lookups of the given courses yield the same lists |
| RoleAssignment.ChangesContain | src/services/discord/role-assignment.ts:69-91 | Every role added, removed or queued for one course appears in the lists for all the courses |
| RoleAssignment.AssignedCourseRoles | src/services/discord/role-assignment.ts:72-81 | An assigned course with an implement puts its main role in the add list, and its TA role in the add list when the assignment is TA and in the remove list otherwise |
| RoleAssignment.UnassignedCourseRoles | src/services/discord/role-assignment.ts:82-89 | An unassigned course with an implement puts both roles in the remove list and is queued; one without an implement contributes nothing |
| RoleAssignment.QueuedCourses | src/services/discord/role-assignment.ts:82-89 | Every queued course is one of the guild's courses, is not assigned and has an implement |
| RoleAssignment.VerificationRolePlacement | src/services/discord/role-assignment.ts:59-66 | A verified member's lists start the add list with the verification role; any other status starts the remove list with it; the course part is left as it is |
| RoleAssignment.CreationKeepsSeen | src/services/discord/role-assignment.ts:74 | Creating an assigned course's implement leaves the lists for the courses already seen unchanged, and every assigned course seen so far still has an implement |
| RoleAssignment.ProcessCourse | src/services/discord/role-assignment.ts:70-90 | The lists grow by this course's contribution, against the store afterwards; only an assigned course's own lookup may change; only creation calls are made |
| RoleAssignment.ProcessCourses | src/services/discord/role-assignment.ts:70-90 | The inner loop yields the lists for the seen courses and the group; only lookups of assigned courses of the group change; the verification implement is untouched; only creation calls are made |
| RoleAssignment.ProcessGroups | src/services/discord/role-assignment.ts:69-91 | The lists are those of every course in group order, against the final store; every assigned course has an implement; only assigned courses' lookups change; only creation calls are made |
| RoleAssignment.VerificationStep | src/services/discord/role-assignment.ts:59-66 | Disabled: no change and no call; enabled: the implement exists afterwards and its role is placed by status, and a member without a record throws; course implements are untouched and only creation calls are made |
| RoleAssignment.ComputeRoleChanges | src/services/discord/role-assignment.ts:51-91 | Throws exactly when the member has no record (and verification is on or there are courses) or has no data for the guild (and there are courses); otherwise returns `RoleChangesFor` against the store afterwards; only creation calls are made, and only assigned courses' lookups change |
| RoleAssignment.CourseStep | src/services/discord/role-assignment.ts:68-91 | Throws exactly when there are courses and the member has no record or no data for the guild; otherwise the courses' contributions follow the prior lists, every assigned course has an implement, only assigned courses' lookups change, and only creation calls are made |
| RoleAssignment.QueuedMeansRemoved | src/services/discord/role-assignment.ts:98-105 | A non-empty queue always comes with a non-empty remove list |
| RoleAssignment.ApplyRoleChanges | src/services/discord/role-assignment.ts:94-105 | The log gains the add call when the add list is non-empty, the pause when both lists are, the remove call when the remove list is, then only deletions; the member then lacks every removed role and holds every other added live role; without removals nothing is deleted; with them, every queued course nobody takes loses its implement; a queued course somebody still takes keeps its implement |
| RoleAssignment.DeleteQueued | src/services/discord/role-assignment.ts:102-104 | Only deletion calls are made; members lose exactly the deleted roles; only queued keys' lookups change, and a queued course somebody still takes keeps its implement; on success every queued course nobody takes has no implement |
| RoleAssignment.DeleteNext | src/services/discord/role-assignment.ts:103 | One deletion step keeps the loop invariant (taken courses keep their implements) and extends the emptied prefix by one course |
| RoleAssignment.ComputeAndApplyRoleChanges | src/services/discord/role-assignment.ts:51-106 | Creation calls, then the lists computed against the store they produce, then the calls applying them, then deletions; a missing record or guild data throws; afterwards the member's roles match the lists, every queued course nobody takes has lost its implement, and every queued course somebody takes has kept it |
| RoleAssignment.SettledOkIff | src/services/discord/role-assignment.ts:24-28 | As written, the guild queue after a run is fulfilled, so the run is logged as updated, exactly when no run up to and including it has failed |
| RoleAssignment.LaterSuccessReportedFailed | src/services/discord/role-assignment.ts:24-28 | As written, a successful run after a failed one leaves the queue rejected with the earlier error |
| RoleAssignment.QueueRoleComputation | src/services/discord/role-assignment.ts:39-49 | Each run starts with the rate-limit pause; the run is reported updated exactly when its own computation succeeded (the intended reporting: the source's queue chain also reports failure after any earlier failed run in the guild, see Findings), and then the lists are `RoleChangesFor` against the store after creation, the member's roles match them, unused queued implements are gone and used ones kept; a member without a record or guild data who needs one is never reported updated |
| Platform.Platform.DeleteChannel | src/services/implement/course/implement.ts:73 | Deleting a channel that does not resolve fails and changes nothing; otherwise the channel leaves the live set and its category's count, and the call is logged |
| Platform.Platform.DeleteRole | src/services/implement/course/implement.ts:77 | Deleting a role that does not resolve fails and changes nothing; otherwise the role leaves the live set and every member, and the call is logged |

## Left out

- The promise-chain queue of `src/services/discord/role-assignment.ts:19-31` is not modelled as state. `RoleAssignment.QueueRoleComputation` is one whole run, with no concurrency, and reports by its own outcome. As written, after a failed run `.finally` keeps the rejection, so every later run in that guild is reported as failed. `RoleAssignment.Settled` models that reporting on its own, and the Findings row records it.
- Configuration loading is not modelled: `fs.readFile`, JSON parsing and the environment overrides of `src/services/config.ts:13-41`. The loaded configuration is the constructor's argument.
- `CourseSelection.Disambiguate` is modelled on values. It returns the dictionary as `disambiguateNumbers` leaves it, rather than changing the caller's object in place.
- The parser result is taken as a prefix-keyed parameter, because `src/utils/course.ts:2` returns a list of strings while the controllers read an object keyed by prefix.
- `DirectMessage.DirectMessageController.HandleFeedbackStart`: the unawaited `isUserVerified` of `src/controllers/dm/direct-message.ts:89` is the `senderVerified` parameter, because `src/services/database/user.ts` does not define it. As written, that Promise is always truthy, so the unverified branch may never be taken.
- `Config.VerificationError`: the values of the verifier type enumeration are the `verifierTypes` parameter, because the enumeration is not part of this model.
- Failures of database writes, and the catch branches that report them, are not modelled (`src/controllers/channel/course-selection.ts:95-99` and `118-122`).
- `Route.GeneratePublicUrl`: the output of `querystring.stringify` is a function parameter.
- `DiscordUtils.rateLimitAvoidance` pauses are logged only where they decide the order of calls (role assignment). The pauses in creation and deletion are left out of the log.
- Reply texts are abstracted to datatype constructors named by what they say.
- `Text.LessEq`: `localeCompare` is modelled as lexicographic order on code points. The model relies only on it being a total order.
- `CourseSelection.Union`: the contract states membership and distinctness, not `_.union`'s first-occurrence order. The body computes that order through `LegacyUser.AppendMissing`, but no clause states it, because nothing in the model depends on it.
- `Text.ToLower`: only `A`-`Z` are folded. JavaScript's `toLowerCase` folds every Unicode letter, and may change the length (`"İ"` becomes two code points). So a number token with a non-ASCII capital, such as `1410É`, is a miss in the model but may match a catalog number `1410é` in the source (`src/services/course.ts:74`). The `join`, `leave` and `ta` prefixes are ASCII, and the model decides them as the source does for ASCII input.
- Timestamps are natural-number day counts. "Now" is a parameter.
- `CourseService.GetCourseFromNumber`: the course lists come from the web catalog over HTTP; here they are the `catalog` parameter. The stray async of `updateCourseLists` (`src/services/course.ts:31-42`) is not modelled.
- `MajorAllocator.PLATFORM_MAX_CHANNELS_PER_CATEGORY` is taken as 50, because the constants file that defines it is not part of this model.
- `UtahVerifier.CheckPattern`: the regular expression is stated as an explicit predicate on characters.
- JavaScript truthiness is modelled as "present and not empty" for strings and "present and not zero" for numbers. Other falsy JSON values are not distinguished.
- Verification codes come from a random generator in the source, here a parameter of `UserRecords.UserDatabase.GenerateAndStoreVerificationCode`. `getUserByCode` is not modelled: it is a database query with no logic of its own.
- `Reset`: the unassignment of the matched members (`queueUnassignAllCoursesManyMembers`, `src/services/reset.ts:42`) is not modelled, because `src/services/member-update.ts` is not part of this model. The user list is a parameter: `src/services/reset.ts:23` calls `UserDatabaseService.getAllUsers`, which `src/services/database/user.ts` does not define.
- `CourseChannels.CreateChannelByType`: the channel name is not modelled, because `src/services/implement/course/channel.ts:29` calls `CourseUtils.getChannelNameByType`, which `src/utils/course.ts` does not define.
- Message routing, Discord wrappers whose only content is literal create or delete data, the reset scheduler, email and HTTP are outside the modelled core.

## Findings

| source | as written | input that shows it | evidently intended | confidence | as-written member | corrected member |
|---|---|---|---|---|---|---|
| src/controllers/dm/direct-message.ts:144 | The guard of the guild choice rejects only `NaN`, 0 and numbers above the count. | The reply "-1" with one destination passes the guard. It stores `undefined` as the destination with the writing stage, and the handler then fails reading the destination's name. | Only choices from 1 to the count are accepted. | not executed | DirectMessage.NegativeChoiceBreaksState | DirectMessage.ChooseGuildMeans |
| src/services/discord/role-assignment.ts:24-28 | Each run is chained with `prev.finally(...)`, whose promise keeps `prev`'s rejection when the run fulfils, and the log at lines 43-48 reports on that promise. | A first run that throws, then a second run that succeeds: the second is logged as "Failed to assign roles" with the first run's error, and so is every later run in that guild. | Each run is reported by its own outcome, and a failed run does not affect the reporting of the runs after it. | not executed | RoleAssignment.LaterSuccessReportedFailed | RoleAssignment.QueueRoleComputation |
