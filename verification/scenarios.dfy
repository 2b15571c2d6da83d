/**
 * Whole conversations, for any codes, users and texts: a first
 * registration, a resubmission through the edit flow, another user refused
 * the same code, the admin dump, and a stale back button that walks into the
 * KeyError of `enter_details`. Each conversation is cut into short segments
 * whose resulting state is spelled out, and the segments are joined with
 * `RunAppend`.
 */
module Scenarios {
  import opened Optional
  import opened Text
  import opened Roster
  import opened Registry
  import opened Dialogue
  import opened Properties

  // ---------------------------------------------------------------------------
  // Runs of several updates

  lemma {:induction false} RunAppend(s: BotState, a: seq<(UserId, Event)>, b: seq<(UserId, Event)>)
    ensures Run(s, a + b) == Run(Run(s, a), b)
    decreases |a|
  {
    if a != [] {
      assert (a + b)[0] == a[0] && (a + b)[1..] == a[1..] + b;
      RunAppend(Step(s, a[0].0, a[0].1).0, a[1..], b);
    } else {
      assert a + b == b;
    }
  }

  /** Two runs back to back are the run of both. */
  lemma RunJoin(s: BotState, a: seq<(UserId, Event)>, t: BotState, b: seq<(UserId, Event)>, r: BotState)
    requires Run(s, a) == t && Run(t, b) == r
    ensures Run(s, a + b) == r
  {
    RunAppend(s, a, b);
  }

  lemma RunOne(s: BotState, x: (UserId, Event), t: BotState)
    requires Step(s, x.0, x.1).0 == t
    ensures Run(s, [x]) == t
  {
    assert [x][1..] == [];
  }

  lemma RunPair(s: BotState, x: (UserId, Event), t: BotState, y: (UserId, Event), r: BotState)
    requires Step(s, x.0, x.1).0 == t && Step(t, y.0, y.1).0 == r
    ensures Run(s, [x, y]) == r
  {
    assert [x, y][1..] == [y];
    RunOne(t, y, r);
  }

  /** Writing a key twice keeps the second value. */
  lemma Overwrite<K, V>(m: map<K, V>, k: K, v: V, w: V)
    ensures m[k := v][k := w] == m[k := w]
  {
  }

  // ---------------------------------------------------------------------------
  // Single updates

  lemma StepMenu(s: BotState, u: UserId, data: string)
    requires StateOf(s, u) == Idle && data != "start"
    ensures var o := HandleMenu(s, data);
      Step(s, u, Callback(data)) == (s.(conversations := Enter(s.conversations, u, o.next)), o.reply)
  {
  }

  lemma StepRedeem(s: BotState, u: UserId, text: string)
    requires StateOf(s, u) == VerifyCode && MayRedeem(s, u, Strip(text))
    ensures var c := Strip(text);
      Step(s, u, Message(text)).0 ==
      s.(codeUsage := s.codeUsage[c := u], drafts := s.drafts[u := DraftOf(s, u).(code := Some(c))],
         conversations := s.conversations[u := SelectStage])
  {
  }

  lemma StepReopen(s: BotState, u: UserId, text: string)
    requires StateOf(s, u) == EditInfo && Strip(text) in s.codeUsage && s.codeUsage[Strip(text)] == u
    ensures Step(s, u, Message(text)).0 ==
      s.(drafts := s.drafts[u := DraftOf(s, u).(code := Some(Strip(text)))], conversations := s.conversations[u := EnterName])
  {
  }

  lemma StepChooseStage(s: BotState, u: UserId, i: nat)
    requires StateOf(s, u) == SelectStage && i < |StageNames|
    ensures Step(s, u, Callback(StageButtons(ChooseStagePrefix)[i])).0 ==
      s.(drafts := s.drafts[u := DraftOf(s, u).(stage := Some(StageNames[i]))], conversations := s.conversations[u := EnterName])
  {
    StageButtonsRoundTrip(i);
  }

  lemma StepName(s: BotState, u: UserId, text: string)
    requires StateOf(s, u) == EnterName
    ensures Step(s, u, Message(text)).0 ==
      s.(drafts := s.drafts[u := DraftOf(s, u).(name := Some(Strip(text)))], conversations := s.conversations[u := SelectGender])
  {
  }

  lemma StepOther(s: BotState, u: UserId)
    requires StateOf(s, u) == SelectGender
    ensures Step(s, u, Callback(GenderPrefix + "Other")).0 == s.(conversations := s.conversations[u := SpecifyGender])
  {
    GenderButtonsRoundTrip(s, u);
  }

  lemma StepMale(s: BotState, u: UserId)
    requires StateOf(s, u) == SelectGender
    ensures Step(s, u, Callback(GenderPrefix + "Male")).0 ==
      s.(drafts := s.drafts[u := DraftOf(s, u).(gender := Some("Male"))], conversations := s.conversations[u := EnterDetails])
  {
    GenderButtonsRoundTrip(s, u);
  }

  lemma StepGenderText(s: BotState, u: UserId, text: string)
    requires StateOf(s, u) == SpecifyGender
    ensures Step(s, u, Message(text)).0 ==
      s.(drafts := s.drafts[u := DraftOf(s, u).(gender := Some(Strip(text)))], conversations := s.conversations[u := EnterDetails])
  {
  }

  lemma StepDetails(s: BotState, u: UserId, text: string)
    requires StateOf(s, u) == EnterDetails && MissingKey(s, DraftOf(s, u)).None?
    ensures var d := DraftOf(s, u);
      var p := Profile(d.name.value, d.gender.value, Strip(text), u);
      Step(s, u, Message(text)) ==
      (s.(stages := s.stages[d.stage.value := Upsert(s.stages[d.stage.value], p)],
          userData := Assign(s.userData, d.code.value, p), conversations := s.conversations - {u}), Saved)
  {
  }

  lemma StepDetailsFails(s: BotState, u: UserId, text: string)
    requires StateOf(s, u) == EnterDetails && MissingKey(s, DraftOf(s, u)).Some?
    ensures Step(s, u, Message(text)) ==
      (s.(conversations := s.conversations[u := EnterDetails]), Failed(MissingKey(s, DraftOf(s, u)).value))
  {
  }

  lemma StepAdmin(s: BotState, v: UserId, text: string)
    requires StateOf(s, v) == AdminPanel && Strip(text) == AdminCode
    ensures Step(s, v, Message(text)) == (s.(conversations := s.conversations - {v}), AdminDump(AdminLines(s.userData)))
  {
  }

  /** Adding a key and removing it again gives back the map. */
  lemma AddThenRemove<K, V>(m: map<K, V>, k: K, v: V)
    requires k !in m
    ensures m[k := v] - {k} == m
  {
  }

  // ---------------------------------------------------------------------------
  // Segments of a conversation

  function Redeeming(u: UserId, code: string): seq<(UserId, Event)> {
    [(u, Callback("add_info")), (u, Message(code))]
  }

  function Reopening(u: UserId, code: string): seq<(UserId, Event)> {
    [(u, Callback("edit_info")), (u, Message(code))]
  }

  function StageAndName(u: UserId, i: nat, name: string): seq<(UserId, Event)>
    requires i < |StageNames|
  {
    [(u, Callback(StageButtons(ChooseStagePrefix)[i])), (u, Message(name))]
  }

  function OtherGender(u: UserId, gender: string): seq<(UserId, Event)> {
    [(u, Callback(GenderPrefix + "Other")), (u, Message(gender))]
  }

  /** Choosing "add_info" and sending a code the caller may redeem binds it and asks for the stage. */
  lemma Redeem(s: BotState, u: UserId, code: string)
    requires StateOf(s, u) == Idle && MayRedeem(s, u, Strip(code))
    ensures var c := Strip(code);
      Run(s, Redeeming(u, code)) ==
      s.(codeUsage := s.codeUsage[c := u], drafts := s.drafts[u := DraftOf(s, u).(code := Some(c))],
         conversations := s.conversations[u := SelectStage])
  {
    var c := Strip(code);
    var t := s.(conversations := s.conversations[u := VerifyCode]);
    var r := t.(codeUsage := t.codeUsage[c := u], drafts := t.drafts[u := DraftOf(t, u).(code := Some(c))],
                conversations := t.conversations[u := SelectStage]);
    StepMenu(s, u, "add_info");
    StepRedeem(t, u, code);
    RunPair(s, (u, Callback("add_info")), t, (u, Message(code)), r);
    Overwrite(s.conversations, u, VerifyCode, SelectStage);
  }

  /** Choosing "edit_info" and sending the caller's own code asks for the name again. */
  lemma Reopen(s: BotState, u: UserId, code: string)
    requires StateOf(s, u) == Idle && Strip(code) in s.codeUsage && s.codeUsage[Strip(code)] == u
    ensures Run(s, Reopening(u, code)) ==
      s.(drafts := s.drafts[u := DraftOf(s, u).(code := Some(Strip(code)))], conversations := s.conversations[u := EnterName])
  {
    var t := s.(conversations := s.conversations[u := EditInfo]);
    var r := t.(drafts := t.drafts[u := DraftOf(t, u).(code := Some(Strip(code)))], conversations := t.conversations[u := EnterName]);
    StepMenu(s, u, "edit_info");
    StepReopen(t, u, code);
    RunPair(s, (u, Callback("edit_info")), t, (u, Message(code)), r);
    Overwrite(s.conversations, u, EditInfo, EnterName);
  }

  lemma PickStageAndName(s: BotState, u: UserId, i: nat, name: string)
    requires StateOf(s, u) == SelectStage && i < |StageNames|
    ensures Run(s, StageAndName(u, i, name)) ==
      s.(drafts := s.drafts[u := DraftOf(s, u).(stage := Some(StageNames[i]), name := Some(Strip(name)))],
         conversations := s.conversations[u := SelectGender])
  {
    var d1 := DraftOf(s, u).(stage := Some(StageNames[i]));
    var d2 := d1.(name := Some(Strip(name)));
    var t := s.(drafts := s.drafts[u := d1], conversations := s.conversations[u := EnterName]);
    var r := t.(drafts := t.drafts[u := d2], conversations := t.conversations[u := SelectGender]);
    StepChooseStage(s, u, i);
    StepName(t, u, name);
    RunPair(s, (u, Callback(StageButtons(ChooseStagePrefix)[i])), t, (u, Message(name)), r);
    Overwrite(s.drafts, u, d1, d2);
    Overwrite(s.conversations, u, EnterName, SelectGender);
  }

  lemma TypeGender(s: BotState, u: UserId, gender: string)
    requires StateOf(s, u) == SelectGender
    ensures Run(s, OtherGender(u, gender)) ==
      s.(drafts := s.drafts[u := DraftOf(s, u).(gender := Some(Strip(gender)))], conversations := s.conversations[u := EnterDetails])
  {
    var t := s.(conversations := s.conversations[u := SpecifyGender]);
    var r := t.(drafts := t.drafts[u := DraftOf(t, u).(gender := Some(Strip(gender)))], conversations := t.conversations[u := EnterDetails]);
    StepOther(s, u);
    StepGenderText(t, u, gender);
    RunPair(s, (u, Callback(GenderPrefix + "Other")), t, (u, Message(gender)), r);
    Overwrite(s.conversations, u, SpecifyGender, EnterDetails);
  }

  // ---------------------------------------------------------------------------
  // Conversations

  lemma InitialStages(codes: set<string>, i: nat)
    requires i < |StageNames|
    ensures StageNames[i] in Initial(codes).stages && Initial(codes).stages[StageNames[i]] == []
  {
  }

  lemma UpsertFresh(p: Profile)
    ensures Upsert([], p) == [p]
  {
  }

  lemma UpsertSame(q: Profile, p: Profile)
    requires q.userId == p.userId
    ensures Upsert([q], p) == [p]
  {
    assert WithoutOwner([q], p.userId) == [];
  }

  lemma AssignSame(c: string, q: Profile, p: Profile)
    ensures Assign([(c, q)], c, p) == [(c, p)]
  {
    assert Lookup([(c, q)], c).Some?;
  }

  /** The updates of one registration up to the details: code, stage `i`, name, "Other" with a typed gender. */
  function Filling(u: UserId, code: string, i: nat, name: string, gender: string): seq<(UserId, Event)>
    requires i < |StageNames|
  {
    Redeeming(u, code) + StageAndName(u, i, name) + OtherGender(u, gender)
  }

  /** The updates of one registration: `Filling`, then the details. */
  function Registration(u: UserId, code: string, i: nat, name: string, gender: string, details: string): seq<(UserId, Event)>
    requires i < |StageNames|
  {
    Filling(u, code, i, name, gender) + [(u, Message(details))]
  }

  /** The updates of a resubmission: the caller's code through "edit_info", then name, "Other" with a typed gender, details. */
  function Resubmission(u: UserId, code: string, name: string, gender: string, details: string): seq<(UserId, Event)> {
    Reopening(u, code) + [(u, Message(name))] + OtherGender(u, gender) + [(u, Message(details))]
  }

  /** Redeeming the code, then choosing stage `i` and sending the name. */
  lemma RedeemAndName(s: BotState, u: UserId, code: string, i: nat, name: string)
    requires StateOf(s, u) == Idle && MayRedeem(s, u, Strip(code)) && i < |StageNames|
    ensures Run(s, Redeeming(u, code) + StageAndName(u, i, name)) ==
      s.(codeUsage := s.codeUsage[Strip(code) := u],
         drafts := s.drafts[u := DraftOf(s, u).(code := Some(Strip(code)), stage := Some(StageNames[i]), name := Some(Strip(name)))],
         conversations := s.conversations[u := SelectGender])
  {
    var c := Strip(code);
    var d1 := DraftOf(s, u).(code := Some(c));
    var s1 := s.(codeUsage := s.codeUsage[c := u], drafts := s.drafts[u := d1], conversations := s.conversations[u := SelectStage]);
    var d2 := d1.(stage := Some(StageNames[i]), name := Some(Strip(name)));
    var s2 := s1.(drafts := s1.drafts[u := d2], conversations := s1.conversations[u := SelectGender]);
    Redeem(s, u, code);
    PickStageAndName(s1, u, i, name);
    RunJoin(s, Redeeming(u, code), s1, StageAndName(u, i, name), s2);
    Overwrite(s.drafts, u, d1, d2);
    Overwrite(s.conversations, u, SelectStage, SelectGender);
  }

  /**
   * Filling in the form binds the code and leaves a complete draft, with the
   * caller waiting in ENTER_DETAILS; no stage and no entry of `USER_DATA` is
   * written yet.
   */
  lemma FillIn(s: BotState, u: UserId, code: string, i: nat, name: string, gender: string)
    requires StateOf(s, u) == Idle && MayRedeem(s, u, Strip(code)) && i < |StageNames|
    ensures Run(s, Filling(u, code, i, name, gender)) ==
      s.(codeUsage := s.codeUsage[Strip(code) := u],
         drafts := s.drafts[u := Draft(Some(Strip(code)), Some(StageNames[i]), Some(Strip(name)), Some(Strip(gender)))],
         conversations := s.conversations[u := EnterDetails])
  {
    var ab, g := Redeeming(u, code) + StageAndName(u, i, name), OtherGender(u, gender);
    var d2 := DraftOf(s, u).(code := Some(Strip(code)), stage := Some(StageNames[i]), name := Some(Strip(name)));
    var s2 := s.(codeUsage := s.codeUsage[Strip(code) := u], drafts := s.drafts[u := d2], conversations := s.conversations[u := SelectGender]);
    var d3 := d2.(gender := Some(Strip(gender)));
    var s3 := s2.(drafts := s2.drafts[u := d3], conversations := s2.conversations[u := EnterDetails]);
    RedeemAndName(s, u, code, i, name);
    TypeGender(s2, u, gender);
    RunJoin(s, ab, s2, g, s3);
    Overwrite(s.drafts, u, d2, d3);
    Overwrite(s.conversations, u, SelectGender, EnterDetails);
  }

  /**
   * A first registration from the start: the profile is the only entry of the
   * chosen stage, the code is bound to the user and holds the profile in
   * `USER_DATA`, the other stages stay empty and the conversation has ended.
   */
  lemma FirstRegistration(codes: set<string>, u: UserId, code: string, i: nat, name: string, gender: string, details: string)
    requires Strip(code) in codes && i < |StageNames|
    ensures var s := Run(Initial(codes), Registration(u, code, i, name, gender, details));
      var p := Profile(Strip(name), Strip(gender), Strip(details), u);
      s.stages == Initial(codes).stages[StageNames[i] := [p]] &&
      s.codeUsage == map[Strip(code) := u] &&
      s.userData == [(Strip(code), p)] &&
      DraftOf(s, u) == Draft(Some(Strip(code)), Some(StageNames[i]), Some(Strip(name)), Some(Strip(gender))) &&
      s.conversations == map[]
  {
    var p := Profile(Strip(name), Strip(gender), Strip(details), u);
    var s0 := Initial(codes);
    var f := Filling(u, code, i, name, gender);
    FillIn(s0, u, code, i, name, gender);
    var s3 := Run(s0, f);
    InitialStages(codes, i);
    var d := DraftOf(s3, u);
    assert d == Draft(Some(Strip(code)), Some(StageNames[i]), Some(Strip(name)), Some(Strip(gender)));
    var s4 := s3.(stages := s3.stages[d.stage.value := Upsert(s3.stages[d.stage.value], p)],
                  userData := Assign(s3.userData, d.code.value, p), conversations := s3.conversations - {u});
    StepDetails(s3, u, details);
    RunOne(s3, (u, Message(details)), s4);
    RunJoin(s0, f, s3, [(u, Message(details))], s4);
    UpsertFresh(p);
  }

  /**
   * A resubmission through "edit_info": the new profile replaces the caller's
   * entry in the stage the draft still names and becomes the value of the code
   * in `USER_DATA`, and the conversation ends.
   */
  lemma Resubmit(s: BotState, u: UserId, code: string, name: string, gender: string, details: string)
    requires StateOf(s, u) == Idle && Strip(code) in s.codeUsage && s.codeUsage[Strip(code)] == u
    requires DraftOf(s, u).stage.Some? && DraftOf(s, u).stage.value in s.stages
    ensures var stage := DraftOf(s, u).stage.value;
      var p := Profile(Strip(name), Strip(gender), Strip(details), u);
      var t := Run(s, Resubmission(u, code, name, gender, details));
      t.stages == s.stages[stage := Upsert(s.stages[stage], p)] &&
      t.userData == Assign(s.userData, Strip(code), p) &&
      t.codeUsage == s.codeUsage && StateOf(t, u) == Idle
  {
    var c, stage := Strip(code), DraftOf(s, u).stage.value;
    var p := Profile(Strip(name), Strip(gender), Strip(details), u);
    var a, n, g, z := Reopening(u, code), [(u, Message(name))], OtherGender(u, gender), [(u, Message(details))];
    var d1 := DraftOf(s, u).(code := Some(c));
    var s1 := s.(drafts := s.drafts[u := d1], conversations := s.conversations[u := EnterName]);
    Reopen(s, u, code);
    var d2 := d1.(name := Some(Strip(name)));
    var s2 := s1.(drafts := s1.drafts[u := d2], conversations := s1.conversations[u := SelectGender]);
    StepName(s1, u, name);
    RunOne(s1, n[0], s2);
    RunJoin(s, a, s1, n, s2);
    var d3 := d2.(gender := Some(Strip(gender)));
    var s3 := s2.(drafts := s2.drafts[u := d3], conversations := s2.conversations[u := EnterDetails]);
    TypeGender(s2, u, gender);
    RunJoin(s, a + n, s2, g, s3);
    Overwrite(s1.drafts, u, d2, d3);
    assert DraftOf(s3, u) == d3;
    var s4 := s3.(stages := s3.stages[stage := Upsert(s3.stages[stage], p)], userData := Assign(s3.userData, c, p),
                  conversations := s3.conversations - {u});
    StepDetails(s3, u, details);
    RunOne(s3, z[0], s4);
    RunJoin(s, a + n + g, s3, z, s4);
  }

  /**
   * Registering and then resubmitting through "edit_info" leaves one entry
   * for the user in the stage chosen first, holding the second profile, and
   * one entry in `USER_DATA`.
   */
  lemma RegisterThenEdit(codes: set<string>, u: UserId, code: string, i: nat, name: string, gender: string, details: string,
                         name2: string, gender2: string, details2: string)
    requires Strip(code) in codes && i < |StageNames|
    ensures var s := Run(Initial(codes), Registration(u, code, i, name, gender, details) + Resubmission(u, code, name2, gender2, details2));
      var p := Profile(Strip(name2), Strip(gender2), Strip(details2), u);
      s.stages == Initial(codes).stages[StageNames[i] := [p]] &&
      s.codeUsage == map[Strip(code) := u] &&
      s.userData == [(Strip(code), p)]
  {
    var first, second := Registration(u, code, i, name, gender, details), Resubmission(u, code, name2, gender2, details2);
    var p1 := Profile(Strip(name), Strip(gender), Strip(details), u);
    var p := Profile(Strip(name2), Strip(gender2), Strip(details2), u);
    FirstRegistration(codes, u, code, i, name, gender, details);
    var s := Run(Initial(codes), first);
    var stage := StageNames[i];
    Resubmit(s, u, code, name2, gender2, details2);
    var t := Run(s, second);
    RunAppend(Initial(codes), first, second);
    assert s.stages[stage] == [p1];
    UpsertSame(p1, p);
    Overwrite(Initial(codes).stages, stage, [p1], [p]);
    assert t.stages == s.stages[stage := [p]];
    AssignSame(Strip(code), p1, p);
  }

  /**
   * Another user who presses "add_info" and sends a code already bound to
   * someone else is refused and stays in VERIFY_CODE; no store changes.
   */
  lemma BoundCodeRefused(s: BotState, v: UserId, code: string)
    requires StateOf(s, v) == Idle && Strip(code) in s.codeUsage && s.codeUsage[Strip(code)] != v
    ensures var t := s.(conversations := s.conversations[v := VerifyCode]);
      Step(s, v, Callback("add_info")) == (t, AskCode) &&
      Step(t, v, Message(code)) == (t, InvalidCode)
  {
    StepMenu(s, v, "add_info");
    var t := s.(conversations := s.conversations[v := VerifyCode]);
    assert !MayRedeem(t, v, Strip(code));
    Overwrite(s.conversations, v, VerifyCode, VerifyCode);
  }

  /**
   * Another user who presses "edit_info" and sends a code bound to someone
   * else is refused and stays in EDIT_INFO; no store changes.
   */
  lemma ForeignCodeNotEditable(s: BotState, v: UserId, code: string)
    requires StateOf(s, v) == Idle && !(Strip(code) in s.codeUsage && s.codeUsage[Strip(code)] == v)
    ensures var t := s.(conversations := s.conversations[v := EditInfo]);
      Step(s, v, Callback("edit_info")) == (t, AskEditCode) &&
      Step(t, v, Message(code)) == (t, InvalidEditCode)
  {
    StepMenu(s, v, "edit_info");
    Overwrite(s.conversations, v, EditInfo, EditInfo);
  }

  lemma AdminCodeUnpadded()
    ensures Strip(AdminCode) == AdminCode
  {
    StripUnpadded(AdminCode);
  }

  /**
   * Pressing "admin" and sending the admin code shows one line per entry of
   * `USER_DATA` and leaves the bot exactly as it was.
   */
  lemma AdminSeesEveryEntry(s: BotState, v: UserId)
    requires v !in s.conversations
    ensures var t := s.(conversations := s.conversations[v := AdminPanel]);
      Step(s, v, Callback("admin")) == (t, AskAdminCode) &&
      Step(t, v, Message(AdminCode)) == (s, AdminDump(AdminLines(s.userData)))
  {
    StepMenu(s, v, "admin");
    AdminCodeUnpadded();
    var t := s.(conversations := s.conversations[v := AdminPanel]);
    StepAdmin(t, v, AdminCode);
    AddThenRemove(s.conversations, v, AdminPanel);
  }

  /** After one registration the admin dump is the single line of that profile. */
  lemma AdminDumpAfterRegistration(codes: set<string>, u: UserId, v: UserId, code: string, i: nat,
                                   name: string, gender: string, details: string)
    requires Strip(code) in codes && i < |StageNames| && v != u
    ensures var s := Run(Initial(codes), Registration(u, code, i, name, gender, details));
      var t := s.(conversations := s.conversations[v := AdminPanel]);
      Step(t, v, Message(AdminCode)).1 == AdminDump([AdminLine(Strip(code), Strip(name), Strip(gender), Strip(details))])
  {
    FirstRegistration(codes, u, code, i, name, gender, details);
    var s := Run(Initial(codes), Registration(u, code, i, name, gender, details));
    var t := s.(conversations := s.conversations[v := AdminPanel]);
    AdminCodeUnpadded();
    StepAdmin(t, v, AdminCode);
    var p := Profile(Strip(name), Strip(gender), Strip(details), u);
    assert AdminLines([(Strip(code), p)]) == [AdminLine(Strip(code), Strip(name), Strip(gender), Strip(details))];
  }

  /**
   * A stale "back_to_name" button pressed with no conversation enters the
   * name step without a code in the draft; the form can then be filled in,
   * but the details raise KeyError on the missing code: the reply is the
   * failure, the caller stays in ENTER_DETAILS and no store changes.
   */
  lemma StaleBackButton(s: BotState, u: UserId, name: string, details: string)
    requires StateOf(s, u) == Idle && DraftOf(s, u).code.None?
    ensures var d := DraftOf(s, u).(name := Some(Strip(name)), gender := Some("Male"));
      var t := s.(drafts := s.drafts[u := d], conversations := s.conversations[u := EnterDetails]);
      Run(s, [(u, Callback("back_to_name")), (u, Message(name)), (u, Callback(GenderPrefix + "Male"))]) == t &&
      Step(t, u, Message(details)) == (t, Failed("code"))
  {
    var d1 := DraftOf(s, u).(name := Some(Strip(name)));
    var d := d1.(gender := Some("Male"));
    var s1 := s.(conversations := s.conversations[u := EnterName]);
    var s2 := s1.(drafts := s1.drafts[u := d1], conversations := s1.conversations[u := SelectGender]);
    var t := s2.(drafts := s2.drafts[u := d], conversations := s2.conversations[u := EnterDetails]);
    StepMenu(s, u, "back_to_name");
    StepName(s1, u, name);
    StepMale(s2, u);
    var x, y, z := (u, Callback("back_to_name")), (u, Message(name)), (u, Callback(GenderPrefix + "Male"));
    RunPair(s, x, s1, y, s2);
    RunOne(s2, z, t);
    RunJoin(s, [x, y], s2, [z], t);
    assert [x, y] + [z] == [x, y, z];
    Overwrite(s.drafts, u, d1, d);
    Overwrite(s.conversations, u, EnterName, SelectGender);
    Overwrite(s.conversations, u, SelectGender, EnterDetails);
    assert DraftOf(t, u) == d && MissingKey(t, d) == Some("code");
    StepDetailsFails(t, u, details);
    Overwrite(s.conversations, u, EnterDetails, EnterDetails);
  }
}
