/**
 * The registration dialogue as a pure transition system: the bot's stores,
 * one function per handler of `uohbot.py`, the `ConversationHandler` table
 * that routes an update to a handler, and one step of the whole bot.
 */
module Dialogue {
  import opened Optional
  import opened Text
  import opened Roster
  import opened Registry

  /** The eight conversation states of the bot, plus `Idle` for a user with no conversation. */
  datatype ConvState =
    | Idle
    | SelectStage | EnterName | SelectGender | EnterDetails
    | VerifyCode | EditInfo | AdminPanel | SpecifyGender

  /** An update from one user. */
  datatype Event =
    | Message(text: string)   // a text message that is not a bot command
    | Command(name: string)   // a bot command such as /start, or a message that is not text
    | Callback(data: string)  // the press of an inline button, with its callback data

  /** `context.user_data`: the scratch fields of one user; a key never written is `None`. */
  datatype Draft = Draft(code: Option<string>, stage: Option<string>, name: Option<string>, gender: Option<string>)

  /** One line of the admin dump: a code and the profile fields shown for it. */
  datatype AdminLine = AdminLine(code: string, name: string, gender: string, details: string)

  /** What the bot sends back, in place of the rendered message and keyboard. */
  datatype Reply =
    | Ignored                                           // no handler took the update
    | Acknowledged                                      // the query was answered, nothing rendered
    | MainMenu(choices: seq<string>)
    | StageList(choices: seq<string>)
    | StageEmpty(stage: string, choices: seq<string>)
    | StageMembers(stage: string, members: seq<Profile>, choices: seq<string>)
    | AskCode | AskEditCode | AskAdminCode
    | StagePicker(choices: seq<string>)
    | AskName
    | GenderPicker(choices: seq<string>)
    | AskGenderText(choices: seq<string>)
    | AskDetails(choices: seq<string>)
    | Saved
    | InvalidCode
    | ReEnterName
    | InvalidEditCode
    | AdminDump(lines: seq<AdminLine>)
    | InvalidAdminCode
    | Failed(missingKey: string)                        // the handler raised KeyError

  /** Everything the bot keeps in memory. */
  datatype BotState = BotState(
    validCodes: set<string>,                  // VALID_CODES
    codeUsage: map<string, UserId>,           // CODE_USAGE
    stages: map<string, seq<Profile>>,        // STAGES
    userData: Entries,                        // USER_DATA
    drafts: map<UserId, Draft>,               // context.user_data of each user
    conversations: map<UserId, ConvState>)    // the ConversationHandler's state of each user

  /** What a handler did: the new stores, the state it returns and its reply. */
  datatype Outcome = Outcome(state: BotState, next: ConvState, reply: Reply)

  datatype Handler =
    | MenuHandler | VerifyCodeHandler | ChooseStageHandler | EnterNameHandler | SelectGenderHandler
    | SpecifyGenderHandler | EnterDetailsHandler | EditInfoHandler | AdminPanelHandler

  const AdminCode := "Dadyar.admin"
  const StageNames := ["Stage 1", "Stage 2", "Stage 3", "Stage 4"]
  const ChooseStagePrefix := "choose_stage_"
  const ShowStagePrefix := "show_stage_"
  const GenderPrefix := "gender_"
  const EmptyDraft := Draft(None, None, None, None)

  const MainMenuChoices := ["view_stages", "add_info", "edit_info", "admin"]

  /** One button per stage, in the order of `STAGES`, then the back button to the menu. */
  function StageButtons(prefix: string): (r: seq<string>)
    ensures |r| == |StageNames| + 1 && r[|StageNames|] == "start"
    ensures forall i :: 0 <= i < |StageNames| ==> r[i] == prefix + StageNames[i]
  {
    [prefix + StageNames[0], prefix + StageNames[1], prefix + StageNames[2], prefix + StageNames[3], "start"]
  }

  /** The gender keyboard; `back` is the token of its back button. */
  function GenderButtons(back: string): seq<string> {
    [GenderPrefix + "Male", GenderPrefix + "Female", GenderPrefix + "Other", back]
  }

  function DraftOf(s: BotState, u: UserId): Draft {
    if u in s.drafts then s.drafts[u] else EmptyDraft
  }

  function StateOf(s: BotState, u: UserId): ConvState {
    if u in s.conversations then s.conversations[u] else Idle
  }

  function WithDraft(s: BotState, u: UserId, d: Draft): BotState {
    s.(drafts := s.drafts[u := d])
  }

  /** `STAGES.get(name, [])` */
  function MembersOf(s: BotState, name: string): (r: seq<Profile>)
    ensures name !in s.stages ==> r == []
    ensures name in s.stages ==> r == s.stages[name]
  {
    if name in s.stages then s.stages[name] else []
  }

  /** The admin dump: one line per entry of `USER_DATA`, in its order. */
  function AdminLines(d: Entries): (r: seq<AdminLine>)
    ensures |r| == |d|
    ensures forall i :: 0 <= i < |d| ==> r[i] == AdminLine(d[i].0, d[i].1.name, d[i].1.gender, d[i].1.details)
  {
    if d == [] then []
    else AdminLines(d[..|d| - 1]) + [AdminLine(d[|d| - 1].0, d[|d| - 1].1.name, d[|d| - 1].1.gender, d[|d| - 1].1.details)]
  }

  /** The bot before any update: the loaded codes and four empty stages. */
  function Initial(codes: set<string>): (s: BotState)
    ensures s.validCodes == codes && s.codeUsage == map[] && s.userData == [] && s.drafts == map[] && s.conversations == map[]
    ensures forall i :: 0 <= i < |StageNames| ==> StageNames[i] in s.stages && s.stages[StageNames[i]] == []
    ensures forall n :: n in s.stages ==> n in StageNames
  {
    BotState(codes, map[], map[StageNames[0] := [], StageNames[1] := [], StageNames[2] := [], StageNames[3] := []], [], map[], map[])
  }

  // ---------------------------------------------------------------------------
  // The handlers

  /**
   * `handle_menu`: the menu and back buttons. It changes no store; the
   * three back buttons and the three menu entries each lead to their own
   * state, and every other token ends the conversation.
   */
  function HandleMenu(s: BotState, data: string): (o: Outcome)
    ensures o.state == s
    ensures o.next == VerifyCode <==> data == "add_info"
    ensures o.next == EditInfo <==> data == "edit_info"
    ensures o.next == AdminPanel <==> data == "admin"
    ensures o.next == SelectStage <==> data == "back_to_stage"
    ensures o.next == EnterName <==> data == "back_to_name"
    ensures o.next == SelectGender <==> data == "back_to_gender"
    ensures o.next !in {EnterDetails, SpecifyGender}
    ensures data != "view_stages" && StartsWith(data, ShowStagePrefix) ==>
      var name := SecondField(data, ShowStagePrefix);
      o.reply == if MembersOf(s, name) == [] then StageEmpty(name, ["view_stages"]) else StageMembers(name, s.stages[name], ["view_stages"])
  {
    if data == "view_stages" then Outcome(s, Idle, StageList(StageButtons(ShowStagePrefix)))
    else if data == "add_info" then Outcome(s, VerifyCode, AskCode)
    else if data == "edit_info" then Outcome(s, EditInfo, AskEditCode)
    else if data == "admin" then Outcome(s, AdminPanel, AskAdminCode)
    else if StartsWith(data, ShowStagePrefix) then
      var name := SecondField(data, ShowStagePrefix);
      var members := MembersOf(s, name);
      assert data[0] == ShowStagePrefix[0] == 's';
      Outcome(s, Idle, if members == [] then StageEmpty(name, ["view_stages"]) else StageMembers(name, members, ["view_stages"]))
    else if data == "start" then Outcome(s, Idle, MainMenu(MainMenuChoices))
    else if data == "back_to_stage" then Outcome(s, SelectStage, StagePicker(StageButtons(ChooseStagePrefix)))
    else if data == "back_to_name" then Outcome(s, EnterName, AskName)
    else if data == "back_to_gender" then Outcome(s, SelectGender, GenderPicker(GenderButtons("back_to_name")))
    else Outcome(s, Idle, Acknowledged)
  }

  /** The condition under which `verify_code` accepts `code` from user `u`. */
  predicate MayRedeem(s: BotState, u: UserId, code: string) {
    code in s.validCodes && (code !in s.codeUsage || s.codeUsage[code] == u)
  }

  /**
   * `verify_code`: accepts exactly a valid code that is unbound or already
   * bound to the caller, binds it to the caller and remembers it in the
   * caller's draft. A rejection changes nothing. No binding to another user
   * is ever overwritten.
   */
  function HandleVerifyCode(s: BotState, u: UserId, code: string): (o: Outcome)
    ensures o.next == SelectStage <==> MayRedeem(s, u, code)
    ensures !MayRedeem(s, u, code) ==> o == Outcome(s, VerifyCode, InvalidCode)
    ensures MayRedeem(s, u, code) ==>
      o.state.codeUsage == s.codeUsage[code := u] &&
      o.state == WithDraft(s, u, DraftOf(s, u).(code := Some(code))).(codeUsage := o.state.codeUsage) &&
      o.reply == StagePicker(StageButtons(ChooseStagePrefix))
    ensures forall c :: c in s.codeUsage ==> c in o.state.codeUsage && o.state.codeUsage[c] == s.codeUsage[c]
  {
    if MayRedeem(s, u, code) then
      var s' := WithDraft(s, u, DraftOf(s, u).(code := Some(code)));
      Outcome(s'.(codeUsage := s.codeUsage[code := u]), SelectStage, StagePicker(StageButtons(ChooseStagePrefix)))
    else
      Outcome(s, VerifyCode, InvalidCode)
  }

  /** `choose_stage`: records the stage named by the button in the caller's draft. */
  function HandleChooseStage(s: BotState, u: UserId, data: string): (o: Outcome)
    requires StartsWith(data, ChooseStagePrefix)
    ensures o.next == EnterName && o.reply == AskName
    ensures DraftOf(o.state, u) == DraftOf(s, u).(stage := Some(SecondField(data, ChooseStagePrefix)))
    ensures o.state == s.(drafts := o.state.drafts)
  {
    Outcome(WithDraft(s, u, DraftOf(s, u).(stage := Some(SecondField(data, ChooseStagePrefix)))), EnterName, AskName)
  }

  /**
   * `enter_name`: records the name and shows the gender keyboard, whose back
   * button carries `back_to_stage`.
   */
  function HandleEnterName(s: BotState, u: UserId, name: string): (o: Outcome)
    ensures o.next == SelectGender && o.reply == GenderPicker(GenderButtons("back_to_stage"))
    ensures DraftOf(o.state, u) == DraftOf(s, u).(name := Some(name))
    ensures o.state == s.(drafts := o.state.drafts)
  {
    Outcome(WithDraft(s, u, DraftOf(s, u).(name := Some(name))), SelectGender, GenderPicker(GenderButtons("back_to_stage")))
  }

  /**
   * `select_gender`: `Other` asks for free text and records nothing; any other
   * choice is recorded and leads to the details step.
   */
  function HandleSelectGender(s: BotState, u: UserId, data: string): (o: Outcome)
    requires StartsWith(data, GenderPrefix)
    ensures var g := SecondField(data, GenderPrefix);
      if g == "Other" then o == Outcome(s, SpecifyGender, AskGenderText(["back_to_gender"]))
      else o.next == EnterDetails && DraftOf(o.state, u) == DraftOf(s, u).(gender := Some(g))
    ensures o.state == s.(drafts := o.state.drafts)
  {
    var g := SecondField(data, GenderPrefix);
    if g == "Other" then Outcome(s, SpecifyGender, AskGenderText(["back_to_gender"]))
    else Outcome(WithDraft(s, u, DraftOf(s, u).(gender := Some(g))), EnterDetails, AskDetails(["back_to_gender"]))
  }

  /** `specify_gender`: records the free-text gender. */
  function HandleSpecifyGender(s: BotState, u: UserId, text: string): (o: Outcome)
    ensures o.next == EnterDetails && o.reply == AskDetails([])
    ensures DraftOf(o.state, u) == DraftOf(s, u).(gender := Some(text))
    ensures o.state == s.(drafts := o.state.drafts)
  {
    Outcome(WithDraft(s, u, DraftOf(s, u).(gender := Some(text))), EnterDetails, AskDetails([]))
  }

  /** The draft key `enter_details` finds missing first, or the stage that `STAGES` lacks. */
  function MissingKey(s: BotState, d: Draft): (r: Option<string>)
    ensures r.None? <==> d.code.Some? && d.stage.Some? && d.name.Some? && d.gender.Some? && d.stage.value in s.stages
    ensures d.code.None? ==> r == Some("code")
    ensures d.code.Some? && d.stage.None? ==> r == Some("stage")
    ensures d.code.Some? && d.stage.Some? && d.name.None? ==> r == Some("name")
    ensures d.code.Some? && d.stage.Some? && d.name.Some? && d.gender.None? ==> r == Some("gender")
  {
    if d.code.None? then Some("code")
    else if d.stage.None? then Some("stage")
    else if d.name.None? then Some("name")
    else if d.gender.None? then Some("gender")
    else if d.stage.value !in s.stages then Some(d.stage.value)
    else None
  }

  /**
   * `enter_details`: when the draft is complete and names a known stage, the
   * new profile replaces the caller's entry in that stage and becomes the
   * value of the draft's code in `USER_DATA`, and the conversation ends.
   * Otherwise the handler raises KeyError before any store is written.
   */
  function HandleEnterDetails(s: BotState, u: UserId, details: string): (o: Outcome)
    ensures MissingKey(s, DraftOf(s, u)).Some? ==>
      o == Outcome(s, EnterDetails, Failed(MissingKey(s, DraftOf(s, u)).value))
    ensures MissingKey(s, DraftOf(s, u)).None? ==>
      var d := DraftOf(s, u);
      var p := Profile(d.name.value, d.gender.value, details, u);
      o.next == Idle && o.reply == Saved &&
      o.state.stages == s.stages[d.stage.value := Upsert(s.stages[d.stage.value], p)] &&
      o.state.userData == Assign(s.userData, d.code.value, p) &&
      o.state == s.(stages := o.state.stages, userData := o.state.userData)
  {
    var d := DraftOf(s, u);
    match MissingKey(s, d)
    case Some(key) => Outcome(s, EnterDetails, Failed(key))
    case None =>
      var stage := d.stage.value;
      var p := Profile(d.name.value, d.gender.value, details, u);
      Outcome(s.(stages := s.stages[stage := Upsert(s.stages[stage], p)], userData := Assign(s.userData, d.code.value, p)), Idle, Saved)
  }

  /**
   * `edit_info`: accepts exactly a code bound to the caller and remembers it
   * in the draft; `CODE_USAGE` is never written, and a rejection changes nothing.
   */
  function HandleEditInfo(s: BotState, u: UserId, code: string): (o: Outcome)
    ensures o.next == EnterName <==> code in s.codeUsage && s.codeUsage[code] == u
    ensures o.next != EnterName ==> o == Outcome(s, EditInfo, InvalidEditCode)
    ensures o.next == EnterName ==> DraftOf(o.state, u) == DraftOf(s, u).(code := Some(code)) && o.reply == ReEnterName
    ensures o.state == s.(drafts := o.state.drafts)
  {
    if code in s.codeUsage && s.codeUsage[code] == u then
      Outcome(WithDraft(s, u, DraftOf(s, u).(code := Some(code))), EnterName, ReEnterName)
    else
      Outcome(s, EditInfo, InvalidEditCode)
  }

  /**
   * `admin_panel`: only the exact admin code ends the conversation and shows
   * the dump of `USER_DATA`; no store changes either way.
   */
  function HandleAdminPanel(s: BotState, text: string): (o: Outcome)
    ensures o.state == s
    ensures o.next == Idle <==> text == AdminCode
    ensures o.next != Idle ==> o.next == AdminPanel && o.reply == InvalidAdminCode
    ensures o.reply.AdminDump? <==> text == AdminCode
    ensures text == AdminCode ==> o.reply == AdminDump(AdminLines(s.userData))
  {
    if text == AdminCode then Outcome(s, Idle, AdminDump(AdminLines(s.userData)))
    else Outcome(s, AdminPanel, InvalidAdminCode)
  }

  // ---------------------------------------------------------------------------
  // Routing and the step of the whole bot

  /**
   * The `ConversationHandler` table: in `Idle` any button press enters
   * through `handle_menu`; in a state, the handlers registered for it are
   * tried in order, then the `^start$` fallback; anything else is ignored.
   */
  function Route(st: ConvState, ev: Event): (h: Option<Handler>)
    ensures ev.Command? ==> h == None
    ensures ev.Message? ==> (h.Some? <==> st in {VerifyCode, EnterName, SpecifyGender, EnterDetails, EditInfo, AdminPanel})
    ensures ev.Callback? && (st == Idle || MatchesExactly(ev.data, "start")) ==> h == Some(MenuHandler)
    ensures ev.Callback? && st != Idle ==>
      (h.Some? <==>
        MatchesExactly(ev.data, "start") ||
        (st == SelectStage && (StartsWith(ev.data, ChooseStagePrefix) || MatchesExactly(ev.data, "back_to_stage"))) ||
        (st == EnterName && MatchesExactly(ev.data, "back_to_stage")) ||
        (st == SelectGender && (StartsWith(ev.data, GenderPrefix) || MatchesExactly(ev.data, "back_to_name"))) ||
        (st in {SpecifyGender, EnterDetails} && MatchesExactly(ev.data, "back_to_gender")))
    ensures ev.Message? && st == VerifyCode ==> h == Some(VerifyCodeHandler)
    ensures ev.Message? && st == EnterName ==> h == Some(EnterNameHandler)
    ensures ev.Message? && st == SpecifyGender ==> h == Some(SpecifyGenderHandler)
    ensures ev.Message? && st == EnterDetails ==> h == Some(EnterDetailsHandler)
    ensures ev.Message? && st == EditInfo ==> h == Some(EditInfoHandler)
    ensures ev.Message? && st == AdminPanel ==> h == Some(AdminPanelHandler)
    ensures ev.Callback? && st == SelectStage && StartsWith(ev.data, ChooseStagePrefix) ==> h == Some(ChooseStageHandler)
    ensures ev.Callback? && st == SelectGender && StartsWith(ev.data, GenderPrefix) ==> h == Some(SelectGenderHandler)
    ensures ev.Callback? && h.Some? && !(st == SelectStage && StartsWith(ev.data, ChooseStagePrefix)) && !(st == SelectGender && StartsWith(ev.data, GenderPrefix))
      ==> h == Some(MenuHandler)
    ensures h == Some(ChooseStageHandler) ==> ev.Callback? && StartsWith(ev.data, ChooseStagePrefix)
    ensures h == Some(SelectGenderHandler) ==> ev.Callback? && StartsWith(ev.data, GenderPrefix)
    ensures h.Some? && h.value in {MenuHandler, ChooseStageHandler, SelectGenderHandler} ==> ev.Callback?
    ensures h.Some? && h.value !in {MenuHandler, ChooseStageHandler, SelectGenderHandler} ==> ev.Message?
  {
    match ev
    case Command(_) => None
    case Message(_) =>
      (match st
       case VerifyCode => Some(VerifyCodeHandler)
       case EnterName => Some(EnterNameHandler)
       case SpecifyGender => Some(SpecifyGenderHandler)
       case EnterDetails => Some(EnterDetailsHandler)
       case EditInfo => Some(EditInfoHandler)
       case AdminPanel => Some(AdminPanelHandler)
       case _ => None)
    case Callback(data) =>
      if st == Idle then Some(MenuHandler)
      else if st == SelectStage && StartsWith(data, ChooseStagePrefix) then Some(ChooseStageHandler)
      else if st in {SelectStage, EnterName} && MatchesExactly(data, "back_to_stage") then Some(MenuHandler)
      else if st == SelectGender && StartsWith(data, GenderPrefix) then Some(SelectGenderHandler)
      else if st == SelectGender && MatchesExactly(data, "back_to_name") then Some(MenuHandler)
      else if st in {SpecifyGender, EnterDetails} && MatchesExactly(data, "back_to_gender") then Some(MenuHandler)
      else if MatchesExactly(data, "start") then Some(MenuHandler)
      else None
  }

  /** What a handler receives: the stripped text of a message, or the callback data. */
  function Payload(ev: Event): string {
    match ev
    case Message(text) => Strip(text)
    case Command(name) => name
    case Callback(data) => data
  }

  /**
   * Runs handler `h` for user `u`. Whatever the handler, the valid codes
   * stay, no binding is dropped or changed, a new binding is to `u`, no other
   * user's draft changes, and only `enter_details` writes `STAGES` or `USER_DATA`.
   */
  function Dispatch(s: BotState, u: UserId, h: Handler, payload: string): (o: Outcome)
    requires h == ChooseStageHandler ==> StartsWith(payload, ChooseStagePrefix)
    requires h == SelectGenderHandler ==> StartsWith(payload, GenderPrefix)
    ensures o.state.validCodes == s.validCodes && o.state.conversations == s.conversations
    ensures forall c :: c in s.codeUsage ==> c in o.state.codeUsage && o.state.codeUsage[c] == s.codeUsage[c]
    ensures forall c :: c in o.state.codeUsage && c !in s.codeUsage ==> o.state.codeUsage[c] == u
    ensures forall v :: v != u ==> DraftOf(o.state, v) == DraftOf(s, v)
    ensures h != EnterDetailsHandler ==> o.state.stages == s.stages && o.state.userData == s.userData
  {
    match h
    case MenuHandler => HandleMenu(s, payload)
    case VerifyCodeHandler => HandleVerifyCode(s, u, payload)
    case ChooseStageHandler => HandleChooseStage(s, u, payload)
    case EnterNameHandler => HandleEnterName(s, u, payload)
    case SelectGenderHandler => HandleSelectGender(s, u, payload)
    case SpecifyGenderHandler => HandleSpecifyGender(s, u, payload)
    case EnterDetailsHandler => HandleEnterDetails(s, u, payload)
    case EditInfoHandler => HandleEditInfo(s, u, payload)
    case AdminPanelHandler => HandleAdminPanel(s, payload)
  }

  /** The `ConversationHandler` stores the returned state; `END` (`Idle`) drops the user's entry. */
  function Enter(conv: map<UserId, ConvState>, u: UserId, next: ConvState): map<UserId, ConvState> {
    if next == Idle then conv - {u} else conv[u := next]
  }

  /**
   * One update from user `u`. The `/start` command only shows the menu;
   * an update the table does not route is ignored; otherwise the handler runs
   * and its returned state becomes the user's conversation state.
   */
  function Step(s: BotState, u: UserId, ev: Event): (r: (BotState, Reply))
    ensures r.0.validCodes == s.validCodes
    ensures ev.Command? ==> r.0 == s
  {
    if ev == Command("start") then (s, MainMenu(MainMenuChoices))
    else
      match Route(StateOf(s, u), ev)
      case None => (s, Ignored)
      case Some(h) =>
        var o := Dispatch(s, u, h, Payload(ev));
        (o.state.(conversations := Enter(o.state.conversations, u, o.next)), o.reply)
  }

  /** A sequence of updates, each tagged with its sender, processed one at a time. */
  function Run(s: BotState, events: seq<(UserId, Event)>): (r: BotState)
    ensures r.validCodes == s.validCodes
    decreases |events|
  {
    if events == [] then s
    else Run(Step(s, events[0].0, events[0].1).0, events[1..])
  }
}
