# uohbot registration dialogue in Dafny

`uohbot.py` is a Telegram bot. Holders of an access code use it to register a profile (name, gender, details) in one of four fixed stages. Anyone can list a stage's members. An administrator can dump every registered code with its profile.

This project models the bot's registration dialogue and the in-memory stores the dialogue changes:

- `VALID_CODES`: the codes loaded from the code document at start-up;
- `CODE_USAGE`: the binding of a code to the user who redeemed it;
- `STAGES`: each stage's list of profiles;
- `USER_DATA`: each code's last submitted profile, in first-insertion order;
- each user's `context.user_data` record;
- each user's state in the `ConversationHandler`.

The project has four parts.

- **Pure model.** `Dialogue` is a transition system of values.
  - It has one function per handler, returning the new stores, the next conversation state and an abstract reply.
  - `Route` is the `ConversationHandler` table. `Step` processes one update and `Run` processes a sequence of updates.
  - The string operations the handlers rely on are Python's `str.strip()`, `split(sep)[1]`, `startswith` and the anchored `^tok$` patterns. They are written out in `Text`.
  - The line filter of the code loader is in `Codes`. The stage-list update is in `Roster`. `USER_DATA` as an ordered dictionary is in `Registry`.
- **Properties.** `Properties` states the invariant that every update keeps:
  - `STAGES` keeps exactly its four stage names (the lists under them change; the names do not);
  - a stage holds at most one profile per user;
  - only valid codes are bound;
  - every code in `USER_DATA` and every code remembered in a user's record is bound to that user.

  It also proves that bindings are permanent and exclusive, that users are isolated from each other, the routing rules (back buttons, `start`, the buttons and texts each state ignores) and the keyboard round trips.
- **Scenarios.** `Scenarios` proves, over `Dialogue.Run`, whole conversations for any codes, users and texts: a first registration, a resubmission through "edit_info", refusal of another user's code, the admin dump, and a stale back button that walks into the KeyError of `enter_details`.
- **Engine.** `Engine.Bot` is the program's own form: a class whose fields are the stores, with one method per handler that updates the fields in place. Each method is proved equal to the matching `Dialogue` function and keeps the invariant.

Behaviours of the code that the model reproduces as written:

- **Records are never cleared.** A user's record is not cleared when a conversation ends, although a fresh form per registration might be expected. A resubmission through "edit_info" therefore reuses the stage chosen in an earlier session (`Scenarios.Resubmit`).
- **KeyError in `enter_details`.** When `enter_details` reads a key the record lacks, or a stage `STAGES` lacks, it raises KeyError. The model replies `Failed(key)`. No store changes, and the user stays in ENTER_DETAILS, because the exception leaves the handler before it returns a state.
- **Keyboard mismatch.** The gender keyboard shown after the name carries `back_to_stage`. SELECT_GENDER does not register that token, so the press is ignored.
- **`handle_menu` ends the conversation.** It returns END for "view_stages", for a stage's member list, for `start` and for any unknown token.
- **`$` accepts a trailing newline.** The patterns `^back_to_stage$` and the others also match the token followed by one newline, as Python's `re.match` does.

## Model

| member | source | states |
|---|---|---|
| Text.Strip | uohbot.py:120 | the result is the slice of the input left after removing leading and trailing whitespace (Python's `isspace` set); it is empty exactly when the input is all whitespace, and otherwise starts and ends with a non-space |
| Text.StripIdempotent | uohbot.py:120 | stripping twice is the same as stripping once |
| Text.UpToSeparator | uohbot.py:136 | the longest prefix of the text that contains no occurrence of the separator, followed in the text by the separator or by the end |
| Text.SecondFieldOfToken | uohbot.py:136 | a token built as separator + name, where the name does not contain the separator, splits back to the name |
| Codes.LineCode | uohbot.py:39-41 | a line contributes no code exactly when it is all whitespace, and otherwise its stripped text |
| Codes.LineCodesMembers | uohbot.py:38-41 | a text is a code of a page exactly when some line of the page strips to it and it is non-empty |
| Codes.PageCodesSound | uohbot.py:35-41 | every loaded code comes from some line of some page |
| Codes.PageCodesComplete | uohbot.py:35-41 | every line of every page whose stripped text is non-empty contributes that text |
| Codes.PageCodesMembers | uohbot.py:35-41 | both directions: loaded exactly when some line of some page strips to it |
| Codes.LoadCodes | uohbot.py:31-45 | the nested loop over pages and lines builds exactly the set of non-empty stripped lines |
| Roster.WithoutOwner | uohbot.py:177 | the comprehension keeps exactly the entries of other users, each user's entry count unchanged, and none of the caller's |
| Roster.WithoutOwnerIdempotent | uohbot.py:177 | dropping a user's entries twice is dropping them once |
| Roster.Upsert | uohbot.py:177-178 | the new profile is the last entry and the only one of its user; other users keep their entries, their counts and their relative order |
| Roster.UpsertKeepsUnique | uohbot.py:177-178 | a stage list with at most one entry per user keeps that property |
| Registry.Lookup | uohbot.py:179 | a code is found exactly when an entry has it, and what is found is that entry's profile |
| Registry.LookupAt | uohbot.py:179 | with distinct codes, looking up the code at a position finds that position's profile |
| Registry.Assign | uohbot.py:179 | a new code is appended at the end; an existing code keeps its position, so the order of codes is unchanged |
| Registry.AssignLookup | uohbot.py:179 | after the assignment the code maps to the new profile and every other code keeps its profile |
| Registry.AssignDistinct | uohbot.py:179 | assigning keeps the codes distinct |
| Dialogue.StageButtons | uohbot.py:67-68 | one token per stage, prefix + stage name in the order of `STAGES`, then the back token `start` |
| Dialogue.AdminLines | uohbot.py:197-199 | one line per entry of `USER_DATA`, same position, showing the code, name, gender and details |
| Dialogue.HandleMenu | uohbot.py:61-117 | no store changes; "add_info", "edit_info", "admin", "back_to_stage", "back_to_name" and "back_to_gender" each lead to their own state and only they do; a member list replies empty for an unknown or empty stage and lists the stage's profiles otherwise |
| Dialogue.HandleVerifyCode | uohbot.py:119-131 | accepts exactly a valid code that is unbound or bound to the caller; acceptance binds it to the caller, remembers it in the record and moves to SELECT_STAGE; rejection changes nothing and stays in VERIFY_CODE; no existing binding changes |
| Dialogue.HandleChooseStage | uohbot.py:133-139 | records the stage named after the `choose_stage_` prefix, changes nothing else and moves to ENTER_NAME |
| Dialogue.HandleEnterName | uohbot.py:141-150 | records the name, changes nothing else and shows the gender keyboard whose back token is `back_to_stage` |
| Dialogue.HandleSelectGender | uohbot.py:152-161 | `Other` moves to SPECIFY_GENDER and changes nothing; any other gender is recorded and moves to ENTER_DETAILS |
| Dialogue.HandleSpecifyGender | uohbot.py:163-166 | records the typed gender and moves to ENTER_DETAILS |
| Dialogue.HandleEnterDetails | uohbot.py:168-181 | with a complete record naming a known stage, the stage gets `Upsert` of the new profile, `USER_DATA` gets `Assign` of it under the record's code, nothing else changes and the conversation ends; otherwise it fails on the first missing key and changes nothing |
| Dialogue.HandleEditInfo | uohbot.py:183-192 | accepts exactly a code bound to the caller and remembers it, moving to ENTER_NAME; never writes `CODE_USAGE`; rejection changes nothing and stays in EDIT_INFO |
| Dialogue.HandleAdminPanel | uohbot.py:194-204 | no store changes; ends the conversation with the dump of `AdminLines(USER_DATA)` exactly when the text equals the admin code, and otherwise stays in ADMIN_PANEL with the rejection |
| Dialogue.Route | uohbot.py:215-243 | commands reach no handler; text reaches a handler exactly in the six states that register one; any button in no conversation, and `start` in any state, reaches `handle_menu`; in a conversation a button reaches a handler exactly when it is `start` or a token the state registers (stage buttons or `back_to_stage` in SELECT_STAGE, `back_to_stage` in ENTER_NAME, gender buttons or `back_to_name` in SELECT_GENDER, `back_to_gender` in SPECIFY_GENDER and ENTER_DETAILS); `choose_stage` and `select_gender` only get tokens with their prefix. Which handler: text in VERIFY_CODE, ENTER_NAME, SPECIFY_GENDER, ENTER_DETAILS, EDIT_INFO or ADMIN_PANEL reaches that state's own handler; a `choose_stage_` button in SELECT_STAGE reaches `choose_stage`; a `gender_` button in SELECT_GENDER reaches `select_gender`; every other routed button reaches `handle_menu` |
| Dialogue.Step | uohbot.py:215-246 | `/start` (the `CommandHandler` registered before the conversation) leaves the state unchanged; no update changes the loaded codes; its lemmas in `Properties` state that it keeps the invariant, touches only the sender's record and conversation, and ignores unrouted updates |
| Dialogue.Run | uohbot.py:215-246 | a sequence of updates never changes the loaded codes; `Properties.RunKeepsInv` and `Properties.RunKeepsBindings` state that it keeps the invariant and every code binding |
| Dialogue.MissingKey | uohbot.py:169-177 | `enter_details` raises exactly when the record lacks one of code, stage, name, gender or names a stage that does not exist; the key reported is the first missing one in the order code, stage, name, gender |
| Dialogue.MembersOf | uohbot.py:85 | the members of a known stage are its stored list; an unknown stage has none |
| Dialogue.Initial | uohbot.py:18-29 | start-up state: the given codes, exactly the four stages `Stage 1` to `Stage 4`, each empty, and empty usage, user data, records and conversations |
| Codes.LineCodes | uohbot.py:38-41 | every code taken from a page is non-empty and has no surrounding whitespace |
| Codes.PageCodes | uohbot.py:35-41 | every loaded code is non-empty and has no surrounding whitespace |
| Text.SecondField | uohbot.py:136 | `data.split(sep)[1]` for data starting with `sep`: the longest prefix of the rest that holds no occurrence of `sep`, ending just before the next occurrence when there is one |
| Dialogue.Dispatch | uohbot.py:215-243 | whatever the handler: the valid codes and conversation states stay, no binding is dropped or changed, a new binding is to the caller, no other user's record changes, and only `enter_details` writes `STAGES` or `USER_DATA` |
| Properties.InitialInv | uohbot.py:18-29 | the start-up state satisfies the invariant |
| Properties.VerifyCodeKeepsInv | uohbot.py:119-131 | `verify_code` keeps the invariant |
| Properties.EditInfoKeepsInv | uohbot.py:183-192 | `edit_info` keeps the invariant |
| Properties.EnterDetailsKeepsInv | uohbot.py:168-181 | `enter_details` keeps the invariant: one profile per user per stage, `USER_DATA`'s codes distinct and bound to their profiles' owners |
| Properties.DraftEditKeepsInv | uohbot.py:133-166 | a handler that only edits the caller's record and not its code keeps the invariant |
| Properties.DispatchKeepsInv | uohbot.py:215-243 | every handler keeps the invariant |
| Properties.StepKeepsInv | uohbot.py:215-246 | every update keeps the invariant |
| Properties.RunKeepsInv | uohbot.py:215-246 | every sequence of updates keeps the invariant |
| Properties.StepKeepsBindings | uohbot.py:122-123 | an update never changes the valid codes, never drops or changes a binding, and binds a new code only to its sender |
| Properties.RunKeepsBindings | uohbot.py:122-123 | over any sequence of updates a binding stays as it is |
| Properties.RedeemedCodeIsExclusive | uohbot.py:119-192 | once a user has redeemed a code, after any further updates no other user can redeem it or edit with it, and the owner still can |
| Properties.OnlyEnterDetailsWritesRoster | uohbot.py:177-179 | an update that changes `STAGES` or `USER_DATA` was routed to `enter_details` |
| Properties.StepIsolatesUsers | uohbot.py:215-243 | an update from one user changes no other user's conversation state or record |
| Properties.EnterOthers | uohbot.py:215-243 | storing one user's next state leaves every other user's entry as it was |
| Properties.StartEndsConversation | uohbot.py:242 | the `start` button in any state shows the menu, ends the conversation and changes no store or record |
| Properties.BackButtons | uohbot.py:97-115 | each registered back button moves to the earlier step and changes only the conversation state |
| Properties.GenderKeyboardBackIsIgnored | uohbot.py:147 | the keyboard shown after the name offers `back_to_stage`, and in SELECT_GENDER that press is ignored |
| Properties.UnregisteredUpdatesIgnored | uohbot.py:215-243 | text while no conversation, or in a state that only takes buttons, and every command but `/start`, change nothing |
| Properties.UnregisteredButtonsIgnored | uohbot.py:219-242 | in every conversation state, a button the state does not register (other than `start`) is ignored and changes nothing |
| Properties.ButtonsIgnoredWhileTyping | uohbot.py:215-243 | in VERIFY_CODE, EDIT_INFO and ADMIN_PANEL every button but `start` is ignored and changes nothing |
| Properties.ViewingEndsConversation | uohbot.py:66-117 | viewing the stage list or a stage's members ends the conversation and changes no store |
| Properties.UnknownStageShowsEmpty | uohbot.py:84-87 | a stage name that `STAGES` lacks shows as empty |
| Properties.StageButtonsRoundTrip | uohbot.py:125-136 | every stage button reaches `choose_stage` in SELECT_STAGE and records that stage's name; every stage-list button shows that stage |
| Properties.GenderButtonsRoundTrip | uohbot.py:144-161 | the Male and Female buttons record that gender and move to ENTER_DETAILS; Other moves to SPECIFY_GENDER with nothing changed |
| Properties.AdminDumpListsEachCodeOnce | uohbot.py:198-199 | under the invariant the dump shows each code of `USER_DATA` exactly once, with its profile, and no other code |
| Scenarios.RunAppend | uohbot.py:215-246 | processing two sequences of updates one after the other is processing their concatenation |
| Scenarios.Redeem | uohbot.py:119-128 | "add_info" then a redeemable code binds it to the caller, records it and leaves the caller in SELECT_STAGE |
| Scenarios.Reopen | uohbot.py:183-189 | "edit_info" then the caller's own code records it and leaves the caller in ENTER_NAME |
| Scenarios.PickStageAndName | uohbot.py:133-150 | a stage button then a name records both and leaves the caller in SELECT_GENDER |
| Scenarios.TypeGender | uohbot.py:152-166 | the Other button then a typed gender records it and leaves the caller in ENTER_DETAILS |
| Scenarios.FirstRegistration | uohbot.py:119-181 | from start-up, a full registration leaves the profile as the only entry of the chosen stage, the code bound to the user and holding the profile, the other stages empty and no conversation |
| Scenarios.Resubmit | uohbot.py:141-192 | a resubmission through "edit_info" replaces the caller's entry in the stage the record still names, updates the code's profile, binds nothing new and ends the conversation |
| Scenarios.RegisterThenEdit | uohbot.py:168-192 | registering then resubmitting leaves one entry for the user, holding the second profile, and one entry in `USER_DATA` |
| Scenarios.BoundCodeRefused | uohbot.py:122-131 | another user's "add_info" with a code bound to someone else is refused, stays in VERIFY_CODE and changes no store |
| Scenarios.ForeignCodeNotEditable | uohbot.py:186-192 | "edit_info" with a code not bound to the caller is refused, stays in EDIT_INFO and changes no store |
| Scenarios.AdminSeesEveryEntry | uohbot.py:194-201 | "admin" then the admin code shows one line per entry of `USER_DATA` and leaves the bot exactly as it was |
| Scenarios.AdminDumpAfterRegistration | uohbot.py:194-201 | after one registration the dump is the single line of that profile |
| Scenarios.StaleBackButton | uohbot.py:168-170 | a stale "back_to_name" press with no conversation lets a user fill in the form without a code; the details then fail on the missing code, the user stays in ENTER_DETAILS and nothing changes |
| Engine.Bot.constructor | uohbot.py:18-47 | the stores start as the loaded codes, no bindings, four empty stages and no records, which satisfies the invariant |
| Engine.Bot.HandleMenu | uohbot.py:61-117 | the if-chain's next state and reply are those of `Dialogue.HandleMenu`, with no field written |
| Engine.Bot.HandleVerifyCode | uohbot.py:119-131 | the new fields, next state and reply are those of `Dialogue.HandleVerifyCode`, and the invariant is kept |
| Engine.Bot.HandleChooseStage | uohbot.py:133-139 | the record update, next state and reply are those of `Dialogue.HandleChooseStage`, and the invariant is kept |
| Engine.Bot.HandleEnterName | uohbot.py:141-150 | as `Dialogue.HandleEnterName`, keeping the invariant |
| Engine.Bot.HandleSelectGender | uohbot.py:152-161 | as `Dialogue.HandleSelectGender`, keeping the invariant |
| Engine.Bot.HandleSpecifyGender | uohbot.py:163-166 | as `Dialogue.HandleSpecifyGender`, keeping the invariant |
| Engine.Bot.HandleEnterDetails | uohbot.py:168-181 | the key-by-key reads, the in-place stage and `USER_DATA` writes, next state and reply are those of `Dialogue.HandleEnterDetails`, keeping the invariant |
| Engine.Bot.HandleEditInfo | uohbot.py:183-192 | as `Dialogue.HandleEditInfo`, keeping the invariant |
| Engine.Bot.HandleAdminPanel | uohbot.py:194-204 | the loop over `USER_DATA` builds exactly the dump of `Dialogue.HandleAdminPanel`, with no field written |
| Engine.Bot.Dispatch | uohbot.py:215-243 | calling the routed handler has the effect of `Dialogue.Dispatch` and keeps the invariant |
| Engine.Bot.Step | uohbot.py:215-246 | one update changes the fields exactly as `Dialogue.Step` and keeps the invariant |

## Left out

- Telegram I/O: sending and editing messages, answering callback queries, and the text, emoji and layout of the keyboards and messages. Replies are abstract tags carrying the choice tokens, the stage members or the admin lines. Telegram calls are assumed to succeed: a failing send after a handler's writes (for example at line 127, after the binding at lines 123-124) would leave those writes while the conversation state stays as it was, and the model does not capture that.
- The `/start` command's rendering (uohbot.py:49-59, 245). It only shows the menu. The model replies `MainMenu` and changes nothing.
- PDF reading (`fitz.open`, `get_text`, `splitlines`) and the printing of a reading error. Pages arrive as sequences of lines. The set of codes is created before the reading starts and returned after the error is printed, so a failure at `fitz.open` loads no codes, and a failure while reading page k loads the codes of the pages read before it, `Codes.PageCodes(pages[..k])`.
- Logging, the `BOT_TOKEN` check, building and polling the application, and the crash handler (uohbot.py:12, 206-250).
- Asynchronous scheduling: updates are processed one at a time, in order. Concurrent handlers are not modelled, and neither are races on the shared stores.
- The conversation key: the `ConversationHandler` keys on chat and user. The model keys on the user alone, as in a private chat.
- Updates that are not new text messages or button presses, such as edited messages, photos and stickers. A message that is not plain text reaches no text handler and is modelled as a `Command` event.
- Button presses without callback data: every button of the bot carries data, so these are not modelled.
