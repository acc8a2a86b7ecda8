# AutoCheck insurance bot — verified model

The bot (`bot.py`) is a Telegram chat bot with a two-button menu. Choosing
"🚗 Estimate Insurance" starts a six-question flow: driver age, licence year,
car year, engine size in cc, fuel type, number of previous owners. The answer
to the last question yields an annual premium estimate and ends the flow.
"🔍 Check Car History (coming soon)" only replies that the feature is not
there yet.

This project models the two pieces of logic in that file:

- **Pricing** (`pricing.dfy`): the premium, a base of 750 plus one tiered
  surcharge or discount per answer, clamped below at 550, with the current
  year fixed at 2025. It is a pure function of the six answers. The model
  proves that the rules alone keep every premium within [700, 2000], so the
  550 floor never changes the result. Both ends of that range are reached.
  It also proves the exact tier boundaries, the fuel rule, and monotonicity
  in each input.
- **Conversation** (`conversation.dfy`, `session.dfy`): the global
  `user_states` dict from user id to a per-user dict, holding the pending
  step and the answers so far. `Session.Bot` is a class with that map as a
  field. `Start` and `HandleMessage` update the map step by step, as the
  handlers do. `HandleMessage` is proved equal to the pure function
  `Conversation.Deliver`, and the flow's properties are lemmas about
  `Deliver`, `React` (the effect on one user's dict) and `Run` (a sequence
  of messages from one user).
- **Text** (`text.dfy`): `text.lower()` and `int(text)`, the two
  conversions applied to an answer before it is stored.

Two behaviours of the code are kept on purpose:

- `user_states.get(user_id, {})` hands a user without an entry a fresh dict
  that is never stored. A user who never sent /start, or whose entry was
  removed when an estimate was delivered, therefore never gains an entry
  from a message. Such a user is sent the age prompt after choosing the
  estimate menu, and the answer that follows gets the "/start" reply
  (`EstimateAgainIgnored`).
- `int(text)` raises before `step` is reassigned. An unparseable numeric
  answer therefore leaves the step and all answers as they were. The model
  returns the reply `InvalidNumber` for this case. The code itself sends no
  reply: the exception ends the handler.

Other modelling choices:

- In the code, the per-user dict is mutated in place and is the very object
  stored in `user_states`. In the model, `Entry` is a value, and
  `HandleMessage` writes it back into the map when the user has an entry.
- `{}` and `{"step": None}` behave alike in the code and are the one value
  `Blank`.
- `owners` is not kept in the entry: the dict that receives it is removed in
  the same call.
- The answers before the current step are always present with the right
  kind (`WellFormed`, kept by `Bot.Valid`). So the `owners` step never reads
  a missing key. `React` and `Deliver` require this invariant.

## Model

| member | source | states |
|---|---|---|
| `Text.Lower` | bot.py:56 | the stored fuel answer has the input's length, each character is lower-cased, and no upper-case ASCII letter remains |
| `Text.LowerIdempotent` | bot.py:56 | lower-casing an already stored fuel answer changes nothing |
| `Text.LowerFuelSpellings` | bot.py:54-56 | the capitalised spellings "Diesel", "Electric", "Petrol" the prompt suggests are stored as the lower-case names the pricing rules compare against |
| `Text.ParseShow` | bot.py:40 | `int(...)` accepts every integer written in decimal (with a minus sign when negative) and reads it back unchanged |
| `Text.ParseInt` | bot.py:40 | the model's `int(...)` accepts exactly an optional sign followed by at least one ASCII digit, and the sign decides the sign of the result; `Text.ParseShow` is its round-trip partner |
| `Text.ParseIntRejects` | bot.py:40 | the model's `ParseInt` rejects a text containing a character that is neither a digit nor a sign |
| `Pricing.Premium` | bot.py:62-105 | the premium is at least the 550 floor, lies in [700, 2000], and equals the unclamped rule total, so the floor never binds |
| `Pricing.PremiumRangeTight` | bot.py:63-105 | 700 and 2000 are both attained, so the range cannot be narrowed |
| `Pricing.PremiumExample` | bot.py:63-105 | a 30-year-old with a 2019 licence, a 2020 car with a 1600cc petrol engine and 1 previous owner pays 800 |
| `Pricing.AgeTiers` | bot.py:65-71 | drivers in the same age tier (<25, 25–29, ≥30) pay the same; 24 pays 200 more than 25, 29 pays 100 more than 30 |
| `Pricing.ExperienceTiers` | bot.py:73-80 | the same experience tier (2025 − licence year: <3, 3–4, ≥5) gives the same premium; licence years 2023 and 2021 cost 150 and 200 more than 2022 and 2020 |
| `Pricing.CarAgeTiers` | bot.py:82-87 | the same car-age tier (>15, 11–15, ≤10) gives the same premium; car years 2009 and 2014 cost 100 more than 2010 and 2015 |
| `Pricing.EngineTiers` | bot.py:89-93 | the same engine tier (>2000, 1601–2000, ≤1600) gives the same premium; 2001cc and 1601cc cost 100 more than 2000cc and 1600cc |
| `Pricing.FuelEffect` | bot.py:95-99 | compared with "petrol", "diesel" adds exactly 50, "electric" takes off exactly 100, and every other stored string, "hybrid" included, changes nothing |
| `Pricing.OwnersTiers` | bot.py:101-103 | owner counts in the same tier (≥3 or <3) give the same premium; 3 owners cost 100 more than 2 |
| `Pricing.AgeMonotone` | bot.py:65-71 | with the other answers fixed, an older driver never pays more |
| `Pricing.LicenseYearMonotone` | bot.py:73-80 | with the other answers fixed, a later licence year never costs less |
| `Pricing.CarYearMonotone` | bot.py:82-87 | with the other answers fixed, a newer car never costs more |
| `Pricing.EngineSizeMonotone` | bot.py:89-93 | with the other answers fixed, a larger engine never costs less |
| `Pricing.OwnersMonotone` | bot.py:101-103 | with the other answers fixed, more previous owners never cost less |
| `Conversation.Successor` | bot.py:39-60 | every step but `owners` has a next step, and it is the next one in the fixed order age → license_year → car_year → engine_size → fuel → owners |
| `Conversation.React` | bot.py:29-124 | the effect of one message on a user's dict keeps the invariant that every earlier question is answered with a value of its kind |
| `Conversation.Deliver` | bot.py:23-124 | one message keeps every entry well formed, never changes another user's entry, and leaves the map unchanged for a user without an entry |
| `Conversation.Run` | bot.py:23-124 | a sequence of messages from one user keeps every entry well formed, yields one reply per message, and never changes another user's entry |
| `Conversation.EstimateMenuRestarts` | bot.py:29-32 | the estimate menu text sets the step to `age` from any step, keeps all earlier answers, and replies with the age prompt |
| `Conversation.HistoryMenuUnchanged` | bot.py:34-36 | the history menu text leaves the dict unchanged at any step and replies "coming soon" |
| `Conversation.NoStepFallback` | bot.py:123-124 | with no step pending, any non-menu text leaves the dict unchanged and replies with the /start request |
| `Conversation.ParsedAnswerAdvances` | bot.py:39-53 | a parseable answer to one of the first four questions is stored under that question, no other answer changes, the step moves to the next question, and the reply asks it |
| `Conversation.FuelStoredUnvalidated` | bot.py:55-58 | any non-menu text answers the fuel question: it is stored lower-cased without validation, no other answer changes, and the owners question comes next |
| `Conversation.UnparseableUnchanged` | bot.py:39-60 | an answer `int(...)` rejects at a numeric step leaves the step and every stored answer unchanged |
| `Conversation.OwnersCompletes` | bot.py:59-121 | a parseable owner count removes the user's dict and replies with the premium of the collected answers, which lies in [700, 2000] |
| `Conversation.AbsentUserNotServed` | bot.py:25-36 | a user without an entry never gains one; they get the age prompt, "coming soon" or the /start request, and the map is unchanged |
| `Conversation.DeliverFrame` | bot.py:121 | the sender's entry is replaced when the effect keeps a dict and removed when it does not |
| `Conversation.DeliverNumber` | bot.py:39-53 | at the map level, a parseable answer to a numeric question other than the last stores it, advances the step, and asks the next question |
| `Conversation.DeliverFuel` | bot.py:55-58 | at the map level, the fuel answer is stored lower-cased and the owners question is asked |
| `Conversation.DeliverOwners` | bot.py:59-121 | at the map level, a parseable owner count removes the sender's entry and replies with the estimate |
| `Conversation.RunAppend` | bot.py:23-124 | running two message sequences one after the other is the same as running their concatenation |
| `Conversation.FullEstimate` | bot.py:29-121 | the menu text and six in-order answers that parse yield the six prompts, then the premium of those answers; the sender's entry is removed and every other entry is unchanged |
| `Conversation.DecimalEstimate` | bot.py:29-121 | the same full flow, with every numeric answer written in decimal |
| `Conversation.EstimateAgainIgnored` | bot.py:25-32 | after an entry has been removed, the estimate menu text gets the age prompt but stores nothing, and the next answer gets the /start request |
| `Session.Bot.constructor` | bot.py:9 | `user_states` starts empty |
| `Session.Bot.Start` | bot.py:20 | `/start` replaces the user's dict with one that has no step and no answers and leaves every other entry as it was |
| `Session.Bot.HandleMessage` | bot.py:23-124 | the in-place update of `user_states` and the reply are exactly those of `Deliver` on the old map, and the invariant is kept |

## Left out

- Telegram plumbing: the application builder, handler registration, polling, the reply keyboard, and `reply_text` calls. These are platform I/O. Replies are modelled as the `Reply` datatype, and the estimate reply carries only the total.
- Reply wording and the f-string formatting with `.capitalize()`. These are presentation only.
- `load_dotenv` and `BOT_TOKEN`. These are configuration I/O.
- `async`/`await` scheduling. Each message is one atomic, sequential update.
- Text.ParseInt: accepts only an optional sign followed by ASCII digits. Python's `int()` also accepts surrounding whitespace, underscores between digits and non-ASCII digits. These parsing details are left out. So an answer such as " 42" or "4_2" leaves the step where it is in the model, while the code stores 42 and moves on to the next question.
- Text.Lower: maps only ASCII `A`–`Z`. Python's `str.lower()` also lower-cases other Unicode letters. Unicode case mapping is left out.
- The `ValueError` that `int(text)` raises, and how the framework handles it. The model has a reply `InvalidNumber` for it.
