# Zodiac bot: registry, combination number, compatibility reading and conversation

A Dafny model of the core of a Telegram bot (`bot.py`) that lets a user pick a
zodiac sign and then ask for a horoscope, a sign description, or a
compatibility reading for a (male, female) pair of signs scraped from a web
page.

- `wrappers.dfy`, module `Wrappers`: `Option` (what `dict.get` returns) and
  `Result` (a lookup that raises `KeyError`).
- `zodiac.dfy`, module `Zodiac`: the three tables `ZODIAC_SIGNS`,
  `ZODIAC_INDEXES` and `ZODIAC_INFO` as `map<string, _>` constants with the
  source's twelve labels and values, their declaration order as
  `SignLabels`, and `calculate_combination_number` as `CombinationNumber`,
  which returns `Err(KeyError(label))` for an unregistered label (the male one
  first, as Python evaluates it first). Lemmas prove that the tables share
  their keys, that the ordinals are exactly 1..12 in declaration order, and
  that the combination number is a bijection from ordered pairs onto 1..144.
- `compatibility.dfy`, module `Compatibility`: the part of
  `get_compatibility` after the HTTP request. A fetched page is a `Response`
  (status code and the matched blocks, each with an optional title and an
  optional paragraph). `AssembleReading` is the source's loop, which builds
  the list of paragraphs (computing and discarding each title) and joins it
  with a blank line. It is proved equal to the function `Reading`. Lemmas
  about `Reading` and `Join` say where each paragraph sits in the output,
  how long the output is, and that titles never affect it.
  `GetCompatibility` adds the combination lookup and the fetch, which is a
  function parameter.
- `bot.dfy`, module `Bot`: class `Conversation` with the current state and the
  two `user_data` entries (`sign`, `maleSign`). One method per handler
  (`Start`, `SelectSign`, `SelectOption`, `SelectCompatibilityMale`,
  `SelectCompatibilityFemale`, `CompatibilityResult`, `Cancel`) returns the
  next state and the replies, and writes `user_data` as the handler does.
  A reply is a `Message` (a named fixed text, fetched content, a sign
  description looked up with `ZODIAC_INFO.get`, or a confirmation naming the
  chosen sign) with the keyboard it carries; `Message.Wording` gives the wording.
  `Step` routes one message the way the `ConversationHandler` of `main` does.
  Outside a conversation only `/start` is heard. Inside one, plain text goes
  to the current state's handler and `/cancel` ends the conversation; any
  other command is ignored. The handler names are shifted against the
  states: SELECT_COMPATIBILITY_MALE is handled by
  `select_compatibility_female`, and SELECT_COMPATIBILITY_FEMALE by
  `compatibility_result`. `Step` keeps the invariant `Valid()`: a stored
  sign is always registered, every state after sign selection has a sign,
  and the female-selection state also has a male sign. This invariant is why
  the table lookups in the handlers never raise `KeyError`. Four client
  methods (`SelectOptionScenario`, `MaleSignScenario`,
  `CompatibilityResultScenario`, `StepScenario`) derive the outcomes that
  `test_bot.py` expects from the contracts alone.

The states are named `AwaitSign`, `AwaitOption`, `AwaitMaleSign`,
`AwaitFemaleSign` and `Ended`. `State.Code()` maps them to the integers the
handlers return: 0..3, and -1 for `ConversationHandler.END`.

An unregistered female sign is re-prompted and the state stays
SELECT_COMPATIBILITY_FEMALE (`bot.py:286-288`; `test_bot.py:121-127`).

## Model

| member | source | states |
|---|---|---|
| `Zodiac.TablesShareKeys` | bot.py:35-78 | the three tables have exactly the twelve declared labels as keys, and the labels are pairwise distinct |
| `Zodiac.RegisteredEverywhere` | bot.py:35-78 | a label registered in ZODIAC_SIGNS is also a key of ZODIAC_INDEXES and ZODIAC_INFO, so the lookups that follow a membership test never raise |
| `Zodiac.OrdinalsFollowDeclarationOrder` | bot.py:50-63 | the label at declaration position i has ordinal i + 1 |
| `Zodiac.OrdinalsInjective` | bot.py:50-63 | every ordinal lies in 1..12 and distinct labels have distinct ordinals |
| `Zodiac.EnglishIdsAreLowerCase` | bot.py:35-48 | every label has a non-empty lower-case ASCII English id |
| `Zodiac.CombinationNumber` | bot.py:82-95 | succeeds exactly when both labels are registered; otherwise gives a KeyError naming the male label if it is unregistered, else the female one; a success lies in 1..144 and decodes back to the male and female ordinals |
| `Zodiac.CombinationInjective` | bot.py:82-95 | distinct ordered pairs of registered labels get distinct numbers (the "unique" number of the docstring) |
| `Zodiac.CombinationSurjective` | bot.py:93-95 | every number in 1..144 is the number of the pair at declaration positions (n-1)/12 and (n-1)%12 |
| `Zodiac.CombinationExamples` | test_bot.py:32-40 | Aries/Taurus gives 2, Capricorn/Aquarius gives 119, Taurus/Aries gives 13, and an unregistered label in either position gives a KeyError naming it |
| `Compatibility.Paragraphs` | bot.py:149-154 | one entry per block, in document order, each being the block's paragraph or the "information missing" placeholder |
| `Compatibility.JoinLength` | bot.py:156 | the joined text is as long as all parts plus one separator between neighbours |
| `Compatibility.JoinPartAt` | bot.py:156 | the k-th part appears at its offset in the joined text, followed by the separator unless it is the last part |
| `Compatibility.JoinSeparatorAfter` | bot.py:156 | every part but the last is followed by the separator in the joined text |
| `Compatibility.AssembleReading` | bot.py:131-158 | the loop over the blocks returns `Reading(page)`: the fetch-failure text when the status is not 200, the not-found text when no block matched, otherwise the paragraphs joined by a blank line |
| `Compatibility.GetCompatibility` | bot.py:116-158 | fails with the KeyError of the combination number exactly when a label is unregistered; otherwise returns the reading of the page fetched for the pair's combination number |
| `Compatibility.FailedFetchIgnoresPage` | bot.py:131-132 | any page with a status other than 200 reads as the fixed fetch-failure text, whatever its blocks |
| `Compatibility.ReadingIgnoresTitles` | bot.py:141-154 | pages that differ only in their blocks' titles give the same reading |
| `Compatibility.ReadingHoldsParagraph` | bot.py:138-156 | on a status-200 page, each block's paragraph appears in the reading at its document-order offset, followed by a blank line unless it is the last block |
| `Compatibility.ReadingLength` | bot.py:156 | a successful reading is as long as all paragraphs plus two characters between neighbours |
| `Compatibility.SingleBlockReading` | test_bot.py:52-61 | a status-200 page with one block reads as that block's paragraph, whatever its title |
| `Bot.DescriptionOfRegistered` | bot.py:225-226 | the info reply for a registered sign is its ZODIAC_INFO entry, never the "info unavailable" fallback |
| `Bot.Conversation.constructor` | bot.py:343-344 | a new user is outside any conversation and has no stored signs |
| `Bot.Conversation.Start` | bot.py:160-176 | one greeting with the sign keyboard; next state SELECT_SIGN |
| `Bot.Conversation.SelectSign` | bot.py:178-202 | an unregistered text gets one reply, stays in SELECT_SIGN and leaves the sign alone; a registered one is stored and answered with the menu, moving to SELECT_OPTION |
| `Bot.Conversation.SelectOption` | bot.py:204-231 | each horoscope action replies with the horoscope for the stored sign's English id and its period; info replies with the description of the stored sign (the fallback when none is registered); change-sign behaves as start; compatibility behaves as select_compatibility_male; anything else gets one "choose an option" reply; only horoscope actions need a registered stored sign; nothing is stored |
| `Bot.Conversation.SelectCompatibilityMale` | bot.py:233-248 | one prompt with the sign keyboard; next state SELECT_COMPATIBILITY_MALE (code 2), whatever the input |
| `Bot.Conversation.SelectCompatibilityFemale` | bot.py:250-270 | an unregistered text is re-prompted in SELECT_COMPATIBILITY_MALE with the male sign unchanged; a registered one is stored as the male sign and moves to SELECT_COMPATIBILITY_FEMALE |
| `Bot.Conversation.CompatibilityResult` | bot.py:272-303 | an unregistered female text gets one reply and stays in SELECT_COMPATIBILITY_FEMALE; a registered one gets exactly two replies, the reading of the pair's page and then the menu, and moves to SELECT_OPTION |
| `Bot.Conversation.Cancel` | bot.py:306-318 | exactly one farewell; next state END (code -1) |
| `Bot.Conversation.Step` | bot.py:343-352 | routes a message as the ConversationHandler does and makes the handler's result the new state; keeps `Valid()`, so lookups never raise; /cancel from any state ends with one farewell; the stored sign changes only on a registered sign in SELECT_SIGN; the male sign changes only on a registered sign in SELECT_COMPATIBILITY_MALE; info replies describe a registered sign |

## Left out

- The HTTP requests (`bot.py:108-109`, `bot.py:128-130`) and URL construction. The compatibility fetch is a parameter `fetch: int -> Response` applied to the combination number. The horoscope fetch is a parameter `horoscope: (string, string) -> string` applied to the sign's English id and the period, and it stands for all of `get_horoscope`.
- Exceptions raised by `requests.get` (`bot.py:109`, `bot.py:130`), such as a connection error or a timeout, are not modelled. The `fetch` and `horoscope` parameters are total, so in the model `CompatibilityResult` and the horoscope actions always send their replies. In the source such an exception leaves the handler with no reply, and the conversation state does not move.
- `get_horoscope` (`bot.py:97-114`) is only that parameter. The model claims no fallback for it: the code has no status check and no exception handling, and it would fail on a matching block without a paragraph.
- HTML parsing with BeautifulSoup (`bot.py:110-111`, `bot.py:134-135`, `bot.py:141-142`). A page arrives already reduced to its matched blocks. `.strip()` results are opaque strings.
- Telegram transport: `Update`, `reply_text`, `async`/`await`, `Application`, `run_polling` and the bot token. Keyboard layout is reduced to which keyboard a reply carries. Messages other than text and commands are not modelled; `Input` is a command name or plain text.
- `PERIODS` (`bot.py:33`) is declared but never read by the code. The periods appear as the literals "today", "week" and "month" in `SelectOption`.
- Bot.Conversation.Step: for sign selection and the male and female sign states, it states the next state, the stored signs and the number of replies, but not the reply texts. The exact texts are in the contracts of the handler methods it calls.
- Bot.Conversation.Step: requires `Valid()`. The handler methods require only what the source needs to avoid a `KeyError`: a registered stored sign for a horoscope action, and a registered stored male sign for a registered female sign.
