/**
 * What the dialogue guarantees: the invariant every step keeps, the
 * permanence of code bindings, the isolation of users from each other, the
 * routing rules of the conversation table, and the keyboards' tokens.
 */
module Properties {
  import opened Optional
  import opened Text
  import opened Roster
  import opened Registry
  import opened Dialogue

  /** `STAGES` always has exactly the four predefined stages. */
  ghost predicate StagesFixed(s: BotState) {
    s.stages.Keys == {StageNames[0], StageNames[1], StageNames[2], StageNames[3]}
  }

  /** Each stage holds at most one profile per user. */
  ghost predicate OneProfilePerUser(s: BotState) {
    forall n :: n in s.stages ==> UniqueOwners(s.stages[n])
  }

  /** Only valid codes are bound. */
  ghost predicate BindingsValid(s: BotState) {
    s.codeUsage.Keys <= s.validCodes
  }

  /** Every code in `USER_DATA` is bound to the user whose profile it holds. */
  ghost predicate UserDataOwned(s: BotState) {
    DistinctKeys(s.userData) &&
    forall i :: 0 <= i < |s.userData| ==>
      s.userData[i].0 in s.codeUsage && s.codeUsage[s.userData[i].0] == s.userData[i].1.userId
  }

  /** A code remembered in a user's draft is bound to that user. */
  ghost predicate DraftCodesOwned(s: BotState) {
    forall u :: u in s.drafts && s.drafts[u].code.Some? ==>
      s.drafts[u].code.value in s.codeUsage && s.codeUsage[s.drafts[u].code.value] == u
  }

  ghost predicate Inv(s: BotState) {
    StagesFixed(s) && OneProfilePerUser(s) && BindingsValid(s) && UserDataOwned(s) &&
    DraftCodesOwned(s) && forall v :: v in s.conversations ==> s.conversations[v] != Idle
  }

  lemma InitialInv(codes: set<string>)
    ensures Inv(Initial(codes))
  {
    var s := Initial(codes);
    forall n | n in s.stages ensures UniqueOwners(s.stages[n]) {
      assert s.stages[n] == [];
    }
  }

  // ---------------------------------------------------------------------------
  // Each handler keeps the invariant

  lemma VerifyCodeKeepsInv(s: BotState, u: UserId, code: string)
    requires Inv(s)
    ensures Inv(HandleVerifyCode(s, u, code).state)
  {
  }

  lemma EditInfoKeepsInv(s: BotState, u: UserId, code: string)
    requires Inv(s)
    ensures Inv(HandleEditInfo(s, u, code).state)
  {
  }

  lemma EnterDetailsKeepsInv(s: BotState, u: UserId, details: string)
    requires Inv(s)
    ensures Inv(HandleEnterDetails(s, u, details).state)
  {
    var d := DraftOf(s, u);
    if MissingKey(s, d).None? {
      var p := Profile(d.name.value, d.gender.value, details, u);
      var t := HandleEnterDetails(s, u, details).state;
      UpsertKeepsUnique(s.stages[d.stage.value], p);
      AssignDistinct(s.userData, d.code.value, p);
      assert d.code.value in s.codeUsage && s.codeUsage[d.code.value] == u;
      var e := Assign(s.userData, d.code.value, p);
      forall i | 0 <= i < |e| ensures e[i].0 in s.codeUsage && s.codeUsage[e[i].0] == e[i].1.userId {
        LookupAt(e, i);
        AssignLookup(s.userData, d.code.value, p, e[i].0);
        if e[i].0 != d.code.value {
          var j :| 0 <= j < |s.userData| && s.userData[j] == (e[i].0, e[i].1);
        }
      }
    }
  }

  /** A handler that only edits the caller's draft, and not its code, keeps the invariant. */
  lemma DraftEditKeepsInv(s: BotState, t: BotState, u: UserId)
    requires Inv(s) && t == s.(drafts := t.drafts)
    requires DraftOf(t, u).code == DraftOf(s, u).code
    requires forall v :: v != u ==> DraftOf(t, v) == DraftOf(s, v)
    ensures Inv(t)
  {
    forall v | v in t.drafts && t.drafts[v].code.Some?
      ensures t.drafts[v].code.value in t.codeUsage && t.codeUsage[t.drafts[v].code.value] == v
    {
      assert DraftOf(t, v) == t.drafts[v];
    }
  }

  /** Every handler keeps the invariant. */
  lemma DispatchKeepsInv(s: BotState, u: UserId, h: Handler, x: string)
    requires Inv(s)
    requires h == ChooseStageHandler ==> StartsWith(x, ChooseStagePrefix)
    requires h == SelectGenderHandler ==> StartsWith(x, GenderPrefix)
    ensures Inv(Dispatch(s, u, h, x).state)
  {
    var t := Dispatch(s, u, h, x).state;
    match h
    case MenuHandler =>
    case AdminPanelHandler =>
    case VerifyCodeHandler => VerifyCodeKeepsInv(s, u, x);
    case EditInfoHandler => EditInfoKeepsInv(s, u, x);
    case EnterDetailsHandler => EnterDetailsKeepsInv(s, u, x);
    case ChooseStageHandler => DraftEditKeepsInv(s, t, u);
    case EnterNameHandler => DraftEditKeepsInv(s, t, u);
    case SelectGenderHandler => DraftEditKeepsInv(s, t, u);
    case SpecifyGenderHandler => DraftEditKeepsInv(s, t, u);
  }

  /** Every update keeps the invariant. */
  lemma StepKeepsInv(s: BotState, u: UserId, ev: Event)
    requires Inv(s)
    ensures Inv(Step(s, u, ev).0)
  {
    if ev != Command("start") {
      match Route(StateOf(s, u), ev)
      case None =>
      case Some(h) => DispatchKeepsInv(s, u, h, Payload(ev));
    }
  }

  lemma {:induction false} RunKeepsInv(s: BotState, events: seq<(UserId, Event)>)
    requires Inv(s)
    ensures Inv(Run(s, events))
    decreases |events|
  {
    if events != [] {
      StepKeepsInv(s, events[0].0, events[0].1);
      RunKeepsInv(Step(s, events[0].0, events[0].1).0, events[1..]);
    }
  }

  // ---------------------------------------------------------------------------
  // Bindings

  /**
   * An update never drops or changes a binding, never changes the valid
   * codes, and binds a new code only to its sender.
   */
  lemma StepKeepsBindings(s: BotState, u: UserId, ev: Event)
    ensures var t := Step(s, u, ev).0;
      t.validCodes == s.validCodes &&
      (forall c :: c in s.codeUsage ==> c in t.codeUsage && t.codeUsage[c] == s.codeUsage[c]) &&
      (forall c :: c in t.codeUsage && c !in s.codeUsage ==> t.codeUsage[c] == u)
  {
    if ev != Command("start") && Route(StateOf(s, u), ev).Some? {
      var o := Dispatch(s, u, Route(StateOf(s, u), ev).value, Payload(ev));
    }
  }

  /** Over any sequence of updates, a binding once made stays as it is. */
  lemma {:induction false} RunKeepsBindings(s: BotState, events: seq<(UserId, Event)>, c: string)
    requires c in s.codeUsage
    ensures Run(s, events).validCodes == s.validCodes
    ensures c in Run(s, events).codeUsage && Run(s, events).codeUsage[c] == s.codeUsage[c]
    decreases |events|
  {
    if events != [] {
      StepKeepsBindings(s, events[0].0, events[0].1);
      RunKeepsBindings(Step(s, events[0].0, events[0].1).0, events[1..], c);
    }
  }

  /**
   * Once user `u1` has redeemed code `c`, whatever happens next, another user
   * can neither redeem it nor edit with it, while `u1` still can.
   */
  lemma RedeemedCodeIsExclusive(s: BotState, u1: UserId, u2: UserId, c: string, events: seq<(UserId, Event)>)
    requires u1 != u2 && HandleVerifyCode(s, u1, c).next == SelectStage
    ensures var t := Run(HandleVerifyCode(s, u1, c).state, events);
      HandleVerifyCode(t, u2, c) == Outcome(t, VerifyCode, InvalidCode) &&
      HandleEditInfo(t, u2, c) == Outcome(t, EditInfo, InvalidEditCode) &&
      HandleVerifyCode(t, u1, c).next == SelectStage &&
      HandleEditInfo(t, u1, c).next == EnterName
  {
    RunKeepsBindings(HandleVerifyCode(s, u1, c).state, events, c);
  }

  // ---------------------------------------------------------------------------
  // Who changes what

  /** Only `enter_details` writes `STAGES` or `USER_DATA`. */
  lemma OnlyEnterDetailsWritesRoster(s: BotState, u: UserId, ev: Event)
    requires Step(s, u, ev).0.stages != s.stages || Step(s, u, ev).0.userData != s.userData
    ensures Route(StateOf(s, u), ev) == Some(EnterDetailsHandler)
  {
    if ev != Command("start") && Route(StateOf(s, u), ev).Some? {
      var o := Dispatch(s, u, Route(StateOf(s, u), ev).value, Payload(ev));
    }
  }

  /** An update from `u` touches neither the conversation state nor the draft of any other user. */
  lemma StepIsolatesUsers(s: BotState, u: UserId, ev: Event, v: UserId)
    requires v != u
    ensures StateOf(Step(s, u, ev).0, v) == StateOf(s, v)
    ensures DraftOf(Step(s, u, ev).0, v) == DraftOf(s, v)
  {
    if ev != Command("start") {
      match Route(StateOf(s, u), ev)
      case None =>
      case Some(h) =>
        var o := Dispatch(s, u, h, Payload(ev));
        EnterOthers(o.state.conversations, u, o.next, v);
    }
  }

  /** Storing the state of `u` leaves the entry of every other user as it was. */
  lemma EnterOthers(conv: map<UserId, ConvState>, u: UserId, next: ConvState, v: UserId)
    requires v != u
    ensures v in Enter(conv, u, next) <==> v in conv
    ensures v in conv ==> Enter(conv, u, next)[v] == conv[v]
  {
  }

  /**
   * The `start` button ends the conversation from every state and shows the
   * menu; no store and no draft is touched, so `user_data` survives.
   */
  lemma StartEndsConversation(s: BotState, u: UserId)
    ensures Step(s, u, Callback("start")) == (s.(conversations := s.conversations - {u}), MainMenu(MainMenuChoices))
  {
  }

  /**
   * The back buttons registered in a state lead to the earlier step and
   * change no store or draft.
   */
  lemma BackButtons(s: BotState, u: UserId)
    ensures StateOf(s, u) in {SelectStage, EnterName} ==>
      Step(s, u, Callback("back_to_stage")) == (s.(conversations := s.conversations[u := SelectStage]), StagePicker(StageButtons(ChooseStagePrefix)))
    ensures StateOf(s, u) == SelectGender ==>
      Step(s, u, Callback("back_to_name")) == (s.(conversations := s.conversations[u := EnterName]), AskName)
    ensures StateOf(s, u) in {SpecifyGender, EnterDetails} ==>
      Step(s, u, Callback("back_to_gender")) == (s.(conversations := s.conversations[u := SelectGender]), GenderPicker(GenderButtons("back_to_name")))
  {
    assert !StartsWith("back_to_stage", ShowStagePrefix) && !StartsWith("back_to_stage", ChooseStagePrefix) by {
      assert "back_to_stage"[0] == 'b';
    }
    assert !StartsWith("back_to_name", ShowStagePrefix) && !StartsWith("back_to_name", GenderPrefix) by {
      assert "back_to_name"[0] == 'b';
    }
    assert !StartsWith("back_to_gender", ShowStagePrefix) by {
      assert "back_to_gender"[0] == 'b';
    }
  }

  /**
   * The gender keyboard shown after the name offers `back_to_stage`, but
   * SELECT_GENDER only registers `back_to_name`, so that press is ignored.
   */
  lemma GenderKeyboardBackIsIgnored(s: BotState, u: UserId)
    requires StateOf(s, u) == SelectGender
    ensures HandleEnterName(s, u, "").reply.choices[3] == "back_to_stage"
    ensures Step(s, u, Callback("back_to_stage")) == (s, Ignored)
  {
    assert !StartsWith("back_to_stage", GenderPrefix) by {
      assert "back_to_stage"[0] == 'b';
    }
    assert !MatchesExactly("back_to_stage", "back_to_name") by {
      assert "back_to_stage"[8] != "back_to_name\n"[8];
    }
  }

  /** Text in a state that takes only buttons, and every command other than `/start`, changes nothing. */
  lemma UnregisteredUpdatesIgnored(s: BotState, u: UserId, ev: Event)
    requires (ev.Message? && StateOf(s, u) in {Idle, SelectStage, SelectGender}) || (ev.Command? && ev.name != "start")
    ensures Step(s, u, ev) == (s, Ignored)
  {
  }

  /**
   * VERIFY_CODE, EDIT_INFO and ADMIN_PANEL register only a text handler, so
   * every button there except `start` is ignored and changes nothing.
   */
  lemma ButtonsIgnoredWhileTyping(s: BotState, u: UserId, data: string)
    requires StateOf(s, u) in {VerifyCode, EditInfo, AdminPanel} && !MatchesExactly(data, "start")
    ensures Step(s, u, Callback(data)) == (s, Ignored)
  {
  }

  /**
   * A button that the user's state does not register, other than `start`,
   * reaches no handler and changes nothing: in SELECT_STAGE only stage
   * buttons and `back_to_stage`, in ENTER_NAME only `back_to_stage`, in
   * SELECT_GENDER only gender buttons and `back_to_name`, in SPECIFY_GENDER
   * and ENTER_DETAILS only `back_to_gender`, and in the text states nothing.
   */
  lemma UnregisteredButtonsIgnored(s: BotState, u: UserId, data: string)
    requires StateOf(s, u) != Idle && !MatchesExactly(data, "start")
    requires StateOf(s, u) == SelectStage ==> !StartsWith(data, ChooseStagePrefix) && !MatchesExactly(data, "back_to_stage")
    requires StateOf(s, u) == EnterName ==> !MatchesExactly(data, "back_to_stage")
    requires StateOf(s, u) == SelectGender ==> !StartsWith(data, GenderPrefix) && !MatchesExactly(data, "back_to_name")
    requires StateOf(s, u) in {SpecifyGender, EnterDetails} ==> !MatchesExactly(data, "back_to_gender")
    ensures Step(s, u, Callback(data)) == (s, Ignored)
  {
  }

  /** Viewing the stage list or a stage's members ends the conversation without changing anything else. */
  lemma ViewingEndsConversation(s: BotState, data: string)
    requires data == "view_stages" || StartsWith(data, ShowStagePrefix)
    ensures HandleMenu(s, data).next == Idle && HandleMenu(s, data).state == s
  {
  }

  /** A stage name that `STAGES` does not know shows as an empty stage. */
  lemma UnknownStageShowsEmpty(s: BotState, name: string)
    requires name !in s.stages && !Contains(name, ShowStagePrefix)
    ensures HandleMenu(s, ShowStagePrefix + name).reply == StageEmpty(name, ["view_stages"])
  {
    SecondFieldOfToken(ShowStagePrefix, name);
    assert (ShowStagePrefix + name)[0] == 's';
  }

  // ---------------------------------------------------------------------------
  // The keyboards

  lemma StageNameHasNoSeparator(i: nat, sep: string)
    requires i < |StageNames| && |sep| > |StageNames[i]|
    ensures sep != "" && !Contains(StageNames[i], sep)
  {
  }

  /**
   * Every stage button of the stage picker is taken by `choose_stage` in
   * SELECT_STAGE, and the stage it records is one of `STAGES`; likewise every
   * button of the stage list shows that stage's members.
   */
  lemma StageButtonsRoundTrip(i: nat)
    requires i < |StageNames|
    ensures var tok := StageButtons(ChooseStagePrefix)[i];
      Route(SelectStage, Callback(tok)) == Some(ChooseStageHandler) &&
      SecondField(tok, ChooseStagePrefix) == StageNames[i]
    ensures var tok := StageButtons(ShowStagePrefix)[i];
      StartsWith(tok, ShowStagePrefix) && SecondField(tok, ShowStagePrefix) == StageNames[i]
  {
    StageNameHasNoSeparator(i, ChooseStagePrefix);
    SecondFieldOfToken(ChooseStagePrefix, StageNames[i]);
    StageNameHasNoSeparator(i, ShowStagePrefix);
    SecondFieldOfToken(ShowStagePrefix, StageNames[i]);
  }

  /** Each gender button records the gender it names; `Other` asks for free text instead. */
  lemma GenderButtonsRoundTrip(s: BotState, u: UserId)
    ensures var o := HandleSelectGender(s, u, GenderPrefix + "Male");
      o.next == EnterDetails && DraftOf(o.state, u).gender == Some("Male")
    ensures var o := HandleSelectGender(s, u, GenderPrefix + "Female");
      o.next == EnterDetails && DraftOf(o.state, u).gender == Some("Female")
    ensures var o := HandleSelectGender(s, u, GenderPrefix + "Other");
      o.next == SpecifyGender && o.state == s
  {
    assert !Contains("Male", GenderPrefix) && !Contains("Other", GenderPrefix);
    assert !Contains("Female", GenderPrefix) by {
      forall k | 0 <= k <= 6 ensures !OccursAt("Female", GenderPrefix, k) {
        assert k + 7 > 6;
      }
    }
    SecondFieldOfToken(GenderPrefix, "Male");
    SecondFieldOfToken(GenderPrefix, "Female");
    SecondFieldOfToken(GenderPrefix, "Other");
  }

  // ---------------------------------------------------------------------------
  // The admin dump

  /** Line `i` shows `line`, and no other line shows the same code. */
  predicate ShowsOnce(lines: seq<AdminLine>, i: int, line: AdminLine) {
    0 <= i < |lines| && lines[i] == line && forall j :: 0 <= j < |lines| && j != i ==> lines[j].code != line.code
  }

  /**
   * With the invariant, the admin dump lists each code of `USER_DATA`
   * exactly once, with the profile stored under it, and no other code.
   */
  lemma AdminDumpListsEachCodeOnce(s: BotState, c: string, p: Profile)
    requires Inv(s)
    ensures Lookup(s.userData, c).None? ==> forall i :: 0 <= i < |AdminLines(s.userData)| ==> AdminLines(s.userData)[i].code != c
    ensures Lookup(s.userData, c) == Some(p) ==>
      exists i :: ShowsOnce(AdminLines(s.userData), i, AdminLine(c, p.name, p.gender, p.details))
  {
    var lines := AdminLines(s.userData);
    if Lookup(s.userData, c) == Some(p) {
      var i :| 0 <= i < |s.userData| && s.userData[i] == (c, p);
      forall j | 0 <= j < |lines| && j != i ensures lines[j].code != c {
        assert lines[j].code == s.userData[j].0;
      }
      assert ShowsOnce(lines, i, AdminLine(c, p.name, p.gender, p.details));
    }
  }
}
