/**
 * The bot as the program keeps it: one object whose fields are the
 * module-level stores of `uohbot.py` and the per-user records kept by the
 * `ConversationHandler` and by `context.user_data`. Each handler is a method
 * that updates the fields in place; its contract ties the new fields, the
 * returned state and the reply to the handler function of `Dialogue`, and
 * keeps the invariant of `Properties`.
 */
module Engine {
  import opened Optional
  import opened Text
  import opened Roster
  import opened Registry
  import opened Dialogue
  import Codes
  import Properties

  class Bot {
    const validCodes: set<string>                  // VALID_CODES
    var codeUsage: map<string, UserId>             // CODE_USAGE
    var stages: map<string, seq<Profile>>          // STAGES
    var userData: Entries                          // USER_DATA, in insertion order
    var drafts: map<UserId, Draft>                 // context.user_data of each user
    var conversations: map<UserId, ConvState>      // the ConversationHandler's states

    /** The stores as one value of the dialogue model. */
    ghost function Model(): BotState
      reads this
    {
      BotState(validCodes, codeUsage, stages, userData, drafts, conversations)
    }

    ghost predicate Valid()
      reads this
    {
      Properties.Inv(Model())
    }

    /** Module start-up: the codes loaded from the pages of the code document, four empty stages. */
    constructor (pages: seq<seq<string>>)
      ensures Model() == Initial(Codes.PageCodes(pages))
      ensures Valid()
    {
      var codes := Codes.LoadCodes(pages);
      validCodes := codes;
      codeUsage := map[];
      stages := map[StageNames[0] := [], StageNames[1] := [], StageNames[2] := [], StageNames[3] := []];
      userData := [];
      drafts := map[];
      conversations := map[];
      Properties.InitialInv(codes);
    }

    /** `context.user_data` of `user`; a user who never wrote a key has the empty record. */
    function DraftFor(user: UserId): (d: Draft)
      reads this
      ensures d == DraftOf(Model(), user)
    {
      if user in drafts then drafts[user] else EmptyDraft
    }

    /** `handle_menu`: the menu and back buttons; no field changes. */
    method HandleMenu(data: string) returns (next: ConvState, reply: Reply)
      ensures Outcome(Model(), next, reply) == Dialogue.HandleMenu(Model(), data)
    {
      if data == "view_stages" {
        next, reply := Idle, StageList(StageButtons(ShowStagePrefix));
      } else if data == "add_info" {
        next, reply := VerifyCode, AskCode;
      } else if data == "edit_info" {
        next, reply := EditInfo, AskEditCode;
      } else if data == "admin" {
        next, reply := AdminPanel, AskAdminCode;
      } else if StartsWith(data, ShowStagePrefix) {
        var name := SecondField(data, ShowStagePrefix);
        var members := if name in stages then stages[name] else [];
        next := Idle;
        reply := if members == [] then StageEmpty(name, ["view_stages"]) else StageMembers(name, members, ["view_stages"]);
      } else if data == "start" {
        next, reply := Idle, MainMenu(MainMenuChoices);
      } else if data == "back_to_stage" {
        next, reply := SelectStage, StagePicker(StageButtons(ChooseStagePrefix));
      } else if data == "back_to_name" {
        next, reply := EnterName, AskName;
      } else if data == "back_to_gender" {
        next, reply := SelectGender, GenderPicker(GenderButtons("back_to_name"));
      } else {
        next, reply := Idle, Acknowledged;
      }
    }

    /** `verify_code`: binds an acceptable code to the caller and remembers it in the caller's record. */
    method HandleVerifyCode(user: UserId, code: string) returns (next: ConvState, reply: Reply)
      requires Valid()
      modifies this
      ensures Outcome(Model(), next, reply) == Dialogue.HandleVerifyCode(old(Model()), user, code)
      ensures Valid()
    {
      if code in validCodes && (code !in codeUsage || codeUsage[code] == user) {
        codeUsage := codeUsage[code := user];
        drafts := drafts[user := DraftFor(user).(code := Some(code))];
        next, reply := SelectStage, StagePicker(StageButtons(ChooseStagePrefix));
      } else {
        next, reply := VerifyCode, InvalidCode;
      }
      Properties.VerifyCodeKeepsInv(old(Model()), user, code);
    }

    /** `choose_stage`: records the stage named by the pressed button. */
    method HandleChooseStage(user: UserId, data: string) returns (next: ConvState, reply: Reply)
      requires Valid() && StartsWith(data, ChooseStagePrefix)
      modifies this
      ensures Outcome(Model(), next, reply) == Dialogue.HandleChooseStage(old(Model()), user, data)
      ensures Valid()
    {
      drafts := drafts[user := DraftFor(user).(stage := Some(SecondField(data, ChooseStagePrefix)))];
      next, reply := EnterName, AskName;
      Properties.DispatchKeepsInv(old(Model()), user, ChooseStageHandler, data);
    }

    /** `enter_name`: records the name and shows the gender keyboard. */
    method HandleEnterName(user: UserId, name: string) returns (next: ConvState, reply: Reply)
      requires Valid()
      modifies this
      ensures Outcome(Model(), next, reply) == Dialogue.HandleEnterName(old(Model()), user, name)
      ensures Valid()
    {
      drafts := drafts[user := DraftFor(user).(name := Some(name))];
      next, reply := SelectGender, GenderPicker(GenderButtons("back_to_stage"));
      Properties.DispatchKeepsInv(old(Model()), user, EnterNameHandler, name);
    }

    /** `select_gender`: `Other` asks for free text; any other choice is recorded. */
    method HandleSelectGender(user: UserId, data: string) returns (next: ConvState, reply: Reply)
      requires Valid() && StartsWith(data, GenderPrefix)
      modifies this
      ensures Outcome(Model(), next, reply) == Dialogue.HandleSelectGender(old(Model()), user, data)
      ensures Valid()
    {
      var gender := SecondField(data, GenderPrefix);
      if gender == "Other" {
        next, reply := SpecifyGender, AskGenderText(["back_to_gender"]);
      } else {
        drafts := drafts[user := DraftFor(user).(gender := Some(gender))];
        next, reply := EnterDetails, AskDetails(["back_to_gender"]);
      }
      Properties.DispatchKeepsInv(old(Model()), user, SelectGenderHandler, data);
    }

    /** `specify_gender`: records the typed gender. */
    method HandleSpecifyGender(user: UserId, text: string) returns (next: ConvState, reply: Reply)
      requires Valid()
      modifies this
      ensures Outcome(Model(), next, reply) == Dialogue.HandleSpecifyGender(old(Model()), user, text)
      ensures Valid()
    {
      drafts := drafts[user := DraftFor(user).(gender := Some(text))];
      next, reply := EnterDetails, AskDetails([]);
      Properties.DispatchKeepsInv(old(Model()), user, SpecifyGenderHandler, text);
    }

    /**
     * `enter_details`: reads the record's keys in the order `enter_details` reads them and
     * fails on the first missing one; otherwise drops the caller's entry from
     * the chosen stage, appends the new profile and stores it under the code.
     */
    method HandleEnterDetails(user: UserId, details: string) returns (next: ConvState, reply: Reply)
      requires Valid()
      modifies this
      ensures Outcome(Model(), next, reply) == Dialogue.HandleEnterDetails(old(Model()), user, details)
      ensures Valid()
    {
      var d := DraftFor(user);
      if d.code.None? {
        next, reply := EnterDetails, Failed("code");
      } else if d.stage.None? {
        next, reply := EnterDetails, Failed("stage");
      } else if d.name.None? {
        next, reply := EnterDetails, Failed("name");
      } else if d.gender.None? {
        next, reply := EnterDetails, Failed("gender");
      } else if d.stage.value !in stages {
        next, reply := EnterDetails, Failed(d.stage.value);
      } else {
        var stage := d.stage.value;
        var p := Profile(d.name.value, d.gender.value, details, user);
        var kept := WithoutOwner(stages[stage], user);
        assert kept + [p] == Upsert(stages[stage], p);
        stages := stages[stage := kept + [p]];
        userData := Assign(userData, d.code.value, p);
        next, reply := Idle, Saved;
      }
      Properties.EnterDetailsKeepsInv(old(Model()), user, details);
    }

    /** `edit_info`: accepts exactly a code bound to the caller. */
    method HandleEditInfo(user: UserId, code: string) returns (next: ConvState, reply: Reply)
      requires Valid()
      modifies this
      ensures Outcome(Model(), next, reply) == Dialogue.HandleEditInfo(old(Model()), user, code)
      ensures Valid()
    {
      if code in codeUsage && codeUsage[code] == user {
        drafts := drafts[user := DraftFor(user).(code := Some(code))];
        next, reply := EnterName, ReEnterName;
      } else {
        next, reply := EditInfo, InvalidEditCode;
      }
      Properties.EditInfoKeepsInv(old(Model()), user, code);
    }

    /** `admin_panel`: on the exact admin code, one line per entry of `USER_DATA`, in order. */
    method HandleAdminPanel(text: string) returns (next: ConvState, reply: Reply)
      ensures Outcome(Model(), next, reply) == Dialogue.HandleAdminPanel(Model(), text)
    {
      if text == AdminCode {
        var lines: seq<AdminLine> := [];
        for k := 0 to |userData|
          invariant lines == AdminLines(userData[..k])
        {
          var entry := userData[k];
          lines := lines + [AdminLine(entry.0, entry.1.name, entry.1.gender, entry.1.details)];
          assert userData[..k + 1][..k] == userData[..k];
        }
        assert userData[..|userData|] == userData;
        next, reply := Idle, AdminDump(lines);
      } else {
        next, reply := AdminPanel, InvalidAdminCode;
      }
    }

    /** The `ConversationHandler` calling the callback registered as `h`. */
    method Dispatch(user: UserId, h: Handler, payload: string) returns (next: ConvState, reply: Reply)
      requires Valid()
      requires h == ChooseStageHandler ==> StartsWith(payload, ChooseStagePrefix)
      requires h == SelectGenderHandler ==> StartsWith(payload, GenderPrefix)
      modifies this
      ensures Outcome(Model(), next, reply) == Dialogue.Dispatch(old(Model()), user, h, payload)
      ensures Valid()
    {
      match h {
        case MenuHandler => next, reply := HandleMenu(payload);
        case VerifyCodeHandler => next, reply := HandleVerifyCode(user, payload);
        case ChooseStageHandler => next, reply := HandleChooseStage(user, payload);
        case EnterNameHandler => next, reply := HandleEnterName(user, payload);
        case SelectGenderHandler => next, reply := HandleSelectGender(user, payload);
        case SpecifyGenderHandler => next, reply := HandleSpecifyGender(user, payload);
        case EnterDetailsHandler => next, reply := HandleEnterDetails(user, payload);
        case EditInfoHandler => next, reply := HandleEditInfo(user, payload);
        case AdminPanelHandler => next, reply := HandleAdminPanel(payload);
      }
    }

    /**
     * One update from `user`: `/start` shows the menu, an update the table
     * does not route is ignored, and otherwise the routed handler runs and the
     * state it returns is stored (`END` removes the user's entry).
     */
    method Step(user: UserId, ev: Event) returns (reply: Reply)
      requires Valid()
      modifies this
      ensures (Model(), reply) == Dialogue.Step(old(Model()), user, ev)
      ensures Valid()
    {
      if ev == Command("start") {
        return MainMenu(MainMenuChoices);
      }
      var current := if user in conversations then conversations[user] else Idle;
      match Route(current, ev) {
        case None =>
          reply := Ignored;
        case Some(h) =>
          var next;
          next, reply := Dispatch(user, h, Payload(ev));
          if next == Idle {
            conversations := conversations - {user};
          } else {
            conversations := conversations[user := next];
          }
      }
    }
  }
}
