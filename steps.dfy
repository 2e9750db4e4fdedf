/**
 * What one message does to a chat, state by state, and what every run of messages keeps:
 * the data each question needs, distinct tunnel ids, the home and back keys, the
 * validation of each answer and the access check.
 */
module Steps {
  import opened Text
  import opened Validators
  import opened Store
  import opened Remote
  import opened Wizard

  /** The menus whose handlers check the caller's access. */
  predicate IsMenu(s: Stage) {
    s.MainMenu? || s.SelectTunnel? || s.DeleteTunnel?
  }

  /** The two MTU questions, which also take inline buttons. */
  predicate IsMtu(s: Stage) {
    s.Mtu6to4? || s.MtuGre?
  }

  /** The questions of the wizard: the states whose handlers check the home and back keys first. */
  predicate IsQuestion(s: Stage) {
    !(s.Idle? || s.TunnelMenu? || IsMenu(s))
  }

  /** The question asked before each one; back from the tunnel's name leads to the main menu. */
  function Predecessor(s: Stage): Stage {
    match s
    case TunnelName => MainMenu
    case IranServerIP => TunnelName
    case IranUsername => IranServerIP
    case IranPassword => IranUsername
    case KharejServerIP => IranPassword
    case KharejUsername => KharejServerIP
    case KharejPassword => KharejUsername
    case IranIP => KharejPassword
    case KharejIP => IranIP
    case PSK => KharejIP
    case Mtu6to4 => PSK
    case MtuGre => Mtu6to4
    case CrontabHour => MtuGre
    case _ => s
  }

  /** The input that goes back one question: the inline button of the MTU questions, the back key elsewhere. */
  function BackInput(s: Stage): Input {
    if s == Mtu6to4 then Callback("back_to_psk")
    else if s == MtuGre then Callback("back_to_mtu_6to4")
    else Text(BackToken)
  }

  /**
   * Reference definitions of the answers each question takes: a name or key with a
   * non-blank character, a dotted quad once stripped, an MTU or an hour in range.
   */
  predicate Accepts(s: Stage, t: string) {
    match s
    case TunnelName | PSK => !AllSpace(t)
    case IranServerIP | KharejServerIP | IranIP | KharejIP => IsDottedQuad(Strip(t))
    case Mtu6to4 | MtuGre => MtuAccepted(t)
    case CrontabHour => IsValidCrontabHour(Strip(t))
    case _ => true
  }

  // ---------------------------------------------------------------------------
  // What a step guarantees.

  /** The data stays what the next question needs, and no lookup raises a `KeyError`. */
  predicate KeepsData(w: World, u: Turn) {
    Collected(w) ==> Collected(u.world) && !u.reply.Crashed?
  }

  /** `tunnel_id` stays a key of the table. */
  predicate KeepsIds(w: World, u: Turn) {
    DistinctIds(w.rows) ==> DistinctIds(u.world.rows)
  }

  /** A rejected or ignored input changes nothing. */
  predicate InPlace(w: World, u: Turn) {
    u.reply.Rejected? || u.reply.Ignored? ==> u.world == w
  }

  /**
   * Home drops the data and shows the main menu; back returns to the previous question
   * and keeps the data; the text back key of an MTU question asks the same question again.
   */
  predicate Navigates(env: Env, w: World, input: Input, u: Turn) {
    (IsQuestion(w.stage) && input == Text(HomeToken) ==> u == BackToMain(w))
    && (IsQuestion(w.stage) && input == BackInput(w.stage) ==> u == Turn(w.(stage := Predecessor(w.stage)), Prompted))
    && (IsMtu(w.stage) && input == Callback("back_to_main") ==> u == BackToMain(w))
    && (IsMtu(w.stage) && input == Text(BackToken) ==> u == Turn(w, Prompted))
    && (w.stage == TunnelMenu && input == Text(MenuBackToken) ==> u == BackToMain(w))
    && ((w.stage.SelectTunnel? || w.stage.DeleteTunnel?) && AccessOf(env).Some? && input == Text(MenuBackToken) ==>
          u == BackToMain(w))
  }

  /** An answer to a question is rejected exactly when the question does not accept it. */
  predicate Validates(w: World, input: Input, u: Turn) {
    IsQuestion(w.stage) && input.Text? && input.text != HomeToken && input.text != BackToken ==>
      (u.reply.Rejected? <==> !Accepts(w.stage, input.text))
  }

  /** A caller without access changes nothing before `/start`, and a menu ends the session. */
  predicate Guards(env: Env, w: World, input: Input, u: Turn) {
    AccessOf(env).None? ==>
      (w.stage == Idle ==> u.world == w)
      && (IsMenu(w.stage) && input.Text? ==> u == Turn(w.(stage := Idle, draft := EmptyDraft), Unauthorized))
  }

  predicate Sound(env: Env, w: World, input: Input, u: Turn) {
    KeepsData(w, u) && KeepsIds(w, u) && InPlace(w, u)
    && Navigates(env, w, input, u) && Validates(w, input, u) && Guards(env, w, input, u)
  }

  // ---------------------------------------------------------------------------
  // The two handlers that change the table.

  lemma DeleteKeepsIds(env: Env, w: World, t: string)
    requires DistinctIds(w.rows)
    ensures DistinctIds(OnDeleteTunnel(env, w, t).world.rows)
  {
    if AccessOf(env).Some? && t != MenuBackToken {
      match FindByName(w.rows, NameOfLabel(t), OwnerFilter(AccessOf(env).value, env.user))
      case None =>
      case Some(r) => WithoutIdKeepsDistinct(w.rows, r.id);
    }
  }

  lemma CrontabKeepsIds(env: Env, w: World, t: string)
    requires DistinctIds(w.rows)
    ensures DistinctIds(OnCrontabHour(env, w, t).world.rows)
  {
    var h := Strip(t);
    if t != HomeToken && t != BackToken && IsValidCrontabHour(h) && Missing(w.draft, LoginKeys).None? {
      var d := Set(w.draft, CrontabHourKey, h);
      if RecordOf(d).Present? && !HasId(w.rows, RecordOf(d).value.id) {
        InsertKeepsDistinct(w.rows, RecordOf(d).value);
      }
    }
  }

  // ---------------------------------------------------------------------------
  // What each handler does, stated without the dispatcher.

  /**
   * A question handler: home and back come first, an answer is rejected exactly when it is
   * not `ok`, a rejection leaves everything as it was, and no input is left unhandled.
   */
  predicate AnswersQuestion(w: World, t: string, back: Stage, ok: bool, u: Turn) {
    !u.reply.Ignored? && (u.reply.Rejected? ==> u.world == w)
    && (t == HomeToken ==> u == BackToMain(w))
    && (t == BackToken ==> u == Turn(w.(stage := back), Prompted))
    && (t != HomeToken && t != BackToken ==> (u.reply.Rejected? <==> !ok))
  }

  lemma StrippedAnswers(w: World, t: string, back: Stage, key: Key, next: Stage)
    ensures var u := OnStripped(w, t, back, key, next);
            AnswersQuestion(w, t, back, !AllSpace(t), u) && u.world.rows == w.rows
  {
    StripEmptyIff(t);
  }

  lemma AddressAnswers(w: World, t: string, back: Stage, key: Key, next: Stage)
    ensures var u := OnAddress(w, t, back, key, next);
            AnswersQuestion(w, t, back, IsDottedQuad(Strip(t)), u) && u.world.rows == w.rows
  {
    StrippedIpIff(t);
  }

  lemma UsernameAnswers(w: World, t: string, back: Stage, key: Key, next: Stage)
    ensures var u := OnUsername(w, t, back, key, next);
            AnswersQuestion(w, t, back, true, u) && u.world.rows == w.rows
  {
  }

  lemma IranPasswordAnswers(env: Env, w: World, t: string)
    ensures var u := OnIranPassword(env, w, t);
            AnswersQuestion(w, t, IranUsername, true, u) && u.world.rows == w.rows
  {
  }

  lemma KharejPasswordAnswers(env: Env, w: World, t: string)
    ensures var u := OnKharejPassword(env, w, t);
            AnswersQuestion(w, t, KharejUsername, true, u) && u.world.rows == w.rows
  {
  }

  lemma Mtu6to4TextAnswers(w: World, t: string)
    ensures var u := OnMtu6to4Text(w, t);
            AnswersQuestion(w, t, Mtu6to4, MtuAccepted(t), u) && u.world.rows == w.rows
  {
  }

  /** The configuration run keeps the table and always answers. */
  lemma ProcessConfigKeepsRows(env: Env, w: World)
    ensures var u := ProcessConfig(env, w);
            u.world.rows == w.rows && !u.reply.Rejected? && !u.reply.Ignored?
  {
  }

  lemma MtuGreTextAnswers(env: Env, w: World, t: string)
    ensures var u := OnMtuGreText(env, w, t);
            AnswersQuestion(w, t, MtuGre, MtuAccepted(t), u) && u.world.rows == w.rows
  {
    if t != HomeToken && t != BackToken && MtuAccepted(t) {
      ProcessConfigKeepsRows(env, w.(draft := Set(w.draft, MtuGreKey, t)));
    }
  }

  lemma MtuGreButtonKeepsRows(env: Env, w: World, data: string)
    ensures var u := OnMtuGreButton(env, w, data);
            u.world.rows == w.rows && !u.reply.Rejected? && (u.reply.Ignored? ==> u.world == w)
            && (data == "back_to_main" ==> u == BackToMain(w))
            && (data == "back_to_mtu_6to4" ==> u == Turn(w.(stage := Mtu6to4), Prompted))
  {
    if data == "mtu_gre_default" {
      ProcessConfigKeepsRows(env, w.(draft := Set(w.draft, MtuGreKey, "1424")));
    }
  }

  lemma CrontabHourAnswers(env: Env, w: World, t: string)
    ensures AnswersQuestion(w, t, MtuGre, IsValidCrontabHour(Strip(t)), OnCrontabHour(env, w, t))
  {
    var h := Strip(t);
    if t != HomeToken && t != BackToken && IsValidCrontabHour(h) {
      match Missing(w.draft, LoginKeys)
      case Some(k) =>
      case None =>
        var d := Set(w.draft, CrontabHourKey, h);
        match RecordOf(d)
        case KeyError(k) =>
        case Present(record) =>
          if !HasId(w.rows, record.id) {
            var e := RunPlan(env.oracle, w.log, CrontabPlan(w.draft, h));
            assert OnCrontabHour(env, w, t).reply == if e.failure.Some? then Failed(e.failure.value) else Installed;
          }
    }
  }

  /** The two menus of stored tunnels: access first, then the back key, and a menu always ends. */
  predicate ListsTunnels(env: Env, w: World, t: string, u: Turn) {
    u.world.stage in {Idle, MainMenu} && !u.reply.Rejected? && !u.reply.Ignored? && !u.reply.Crashed?
    && (AccessOf(env).None? ==> u == Turn(w.(stage := Idle, draft := EmptyDraft), Unauthorized))
    && (AccessOf(env).Some? && t == MenuBackToken ==> u == BackToMain(w))
  }

  lemma SelectTunnelLists(env: Env, w: World, t: string)
    ensures var u := OnSelectTunnel(env, w, t); ListsTunnels(env, w, t, u) && u.world.rows == w.rows
  {
  }

  lemma DeleteTunnelLists(env: Env, w: World, t: string)
    ensures ListsTunnels(env, w, t, OnDeleteTunnel(env, w, t))
  {
  }

  // ---------------------------------------------------------------------------
  // One handler at a time.

  /** A question handler keeps every guarantee, whatever it does once the answer is accepted. */
  lemma QuestionSound(env: Env, w: World, t: string, back: Stage, ok: bool, u: Turn)
    requires IsQuestion(w.stage)
    requires back == if IsMtu(w.stage) then w.stage else Predecessor(w.stage)
    requires ok == Accepts(w.stage, t)
    requires AnswersQuestion(w, t, back, ok, u) && KeepsData(w, u) && KeepsIds(w, u)
    ensures Sound(env, w, Text(t), u)
  {
  }

  /** So does a menu of stored tunnels. */
  lemma MenuSound(env: Env, w: World, t: string, u: Turn)
    requires (w.stage.SelectTunnel? || w.stage.DeleteTunnel?)
    requires ListsTunnels(env, w, t, u) && KeepsIds(w, u)
    ensures Sound(env, w, Text(t), u)
  {
  }

  /** A button pressed where no callback handler is registered changes nothing. */
  lemma IgnoredSound(env: Env, w: World, input: Input)
    requires input.Callback? && w.stage != Mtu6to4 && w.stage != MtuGre
    ensures Sound(env, w, input, Turn(w, Ignored))
  {
  }

  lemma IdleTextSound(env: Env, w: World, t: string)
    requires w.stage == Idle
    ensures Sound(env, w, Text(t), OnIdle(env, w, t))
  {
  }

  lemma MainMenuTextSound(env: Env, w: World, t: string, freshId: string)
    requires w.stage == MainMenu
    ensures Sound(env, w, Text(t), OnMainMenu(env, w, t, freshId))
  {
  }

  lemma SelectTunnelTextSound(env: Env, w: World, t: string)
    requires w.stage == SelectTunnel
    ensures Sound(env, w, Text(t), OnSelectTunnel(env, w, t))
  {
    SelectTunnelLists(env, w, t);
    MenuSound(env, w, t, OnSelectTunnel(env, w, t));
  }

  lemma DeleteTunnelTextSound(env: Env, w: World, t: string)
    requires w.stage == DeleteTunnel
    ensures Sound(env, w, Text(t), OnDeleteTunnel(env, w, t))
  {
    DeleteTunnelLists(env, w, t);
    if DistinctIds(w.rows) {
      DeleteKeepsIds(env, w, t);
    }
    MenuSound(env, w, t, OnDeleteTunnel(env, w, t));
  }

  lemma TunnelMenuTextSound(env: Env, w: World, t: string)
    requires w.stage == TunnelMenu
    ensures Sound(env, w, Text(t), OnTunnelMenu(w, t))
  {
  }

  lemma TunnelNameTextSound(env: Env, w: World, t: string)
    requires w.stage == TunnelName
    ensures Sound(env, w, Text(t), OnStripped(w, t, MainMenu, NameKey, TunnelMenu))
  {
    if Collected(w) {
      StrippedCollected(w, t, MainMenu, NameKey, TunnelMenu);
    }
    StrippedAnswers(w, t, MainMenu, NameKey, TunnelMenu);
    QuestionSound(env, w, t, MainMenu, !AllSpace(t), OnStripped(w, t, MainMenu, NameKey, TunnelMenu));
  }

  lemma IranServerIPTextSound(env: Env, w: World, t: string)
    requires w.stage == IranServerIP
    ensures Sound(env, w, Text(t), OnAddress(w, t, TunnelName, IranServerKey, IranUsername))
  {
    if Collected(w) {
      AddressCollected(w, t, TunnelName, IranServerKey, IranUsername);
    }
    AddressAnswers(w, t, TunnelName, IranServerKey, IranUsername);
    QuestionSound(env, w, t, TunnelName, IsDottedQuad(Strip(t)), OnAddress(w, t, TunnelName, IranServerKey, IranUsername));
  }

  lemma IranUsernameTextSound(env: Env, w: World, t: string)
    requires w.stage == IranUsername
    ensures Sound(env, w, Text(t), OnUsername(w, t, IranServerIP, IranUserKey, IranPassword))
  {
    if Collected(w) {
      UsernameCollected(w, t, IranServerIP, IranUserKey, IranPassword);
    }
    UsernameAnswers(w, t, IranServerIP, IranUserKey, IranPassword);
    QuestionSound(env, w, t, IranServerIP, true, OnUsername(w, t, IranServerIP, IranUserKey, IranPassword));
  }

  lemma IranPasswordTextSound(env: Env, w: World, t: string)
    requires w.stage == IranPassword
    ensures Sound(env, w, Text(t), OnIranPassword(env, w, t))
  {
    if Collected(w) {
      IranPasswordCollected(env, w, t);
    }
    IranPasswordAnswers(env, w, t);
    QuestionSound(env, w, t, IranUsername, true, OnIranPassword(env, w, t));
  }

  lemma KharejServerIPTextSound(env: Env, w: World, t: string)
    requires w.stage == KharejServerIP
    ensures Sound(env, w, Text(t), OnAddress(w, t, IranPassword, KharejServerKey, KharejUsername))
  {
    if Collected(w) {
      AddressCollected(w, t, IranPassword, KharejServerKey, KharejUsername);
    }
    AddressAnswers(w, t, IranPassword, KharejServerKey, KharejUsername);
    QuestionSound(env, w, t, IranPassword, IsDottedQuad(Strip(t)), OnAddress(w, t, IranPassword, KharejServerKey, KharejUsername));
  }

  lemma KharejUsernameTextSound(env: Env, w: World, t: string)
    requires w.stage == KharejUsername
    ensures Sound(env, w, Text(t), OnUsername(w, t, KharejServerIP, KharejUserKey, KharejPassword))
  {
    if Collected(w) {
      UsernameCollected(w, t, KharejServerIP, KharejUserKey, KharejPassword);
    }
    UsernameAnswers(w, t, KharejServerIP, KharejUserKey, KharejPassword);
    QuestionSound(env, w, t, KharejServerIP, true, OnUsername(w, t, KharejServerIP, KharejUserKey, KharejPassword));
  }

  lemma KharejPasswordTextSound(env: Env, w: World, t: string)
    requires w.stage == KharejPassword
    ensures Sound(env, w, Text(t), OnKharejPassword(env, w, t))
  {
    if Collected(w) {
      KharejPasswordCollected(env, w, t);
    }
    KharejPasswordAnswers(env, w, t);
    QuestionSound(env, w, t, KharejUsername, true, OnKharejPassword(env, w, t));
  }

  lemma IranIPTextSound(env: Env, w: World, t: string)
    requires w.stage == IranIP
    ensures Sound(env, w, Text(t), OnAddress(w, t, KharejPassword, IranIpKey, KharejIP))
  {
    if Collected(w) {
      AddressCollected(w, t, KharejPassword, IranIpKey, KharejIP);
    }
    AddressAnswers(w, t, KharejPassword, IranIpKey, KharejIP);
    QuestionSound(env, w, t, KharejPassword, IsDottedQuad(Strip(t)), OnAddress(w, t, KharejPassword, IranIpKey, KharejIP));
  }

  lemma KharejIPTextSound(env: Env, w: World, t: string)
    requires w.stage == KharejIP
    ensures Sound(env, w, Text(t), OnAddress(w, t, IranIP, KharejIpKey, PSK))
  {
    if Collected(w) {
      AddressCollected(w, t, IranIP, KharejIpKey, PSK);
    }
    AddressAnswers(w, t, IranIP, KharejIpKey, PSK);
    QuestionSound(env, w, t, IranIP, IsDottedQuad(Strip(t)), OnAddress(w, t, IranIP, KharejIpKey, PSK));
  }

  lemma PSKTextSound(env: Env, w: World, t: string)
    requires w.stage == PSK
    ensures Sound(env, w, Text(t), OnStripped(w, t, KharejIP, PskKey, Mtu6to4))
  {
    if Collected(w) {
      StrippedCollected(w, t, KharejIP, PskKey, Mtu6to4);
    }
    StrippedAnswers(w, t, KharejIP, PskKey, Mtu6to4);
    QuestionSound(env, w, t, KharejIP, !AllSpace(t), OnStripped(w, t, KharejIP, PskKey, Mtu6to4));
  }

  lemma Mtu6to4TextSound(env: Env, w: World, t: string)
    requires w.stage == Mtu6to4
    ensures Sound(env, w, Text(t), OnMtu6to4Text(w, t))
  {
    if Collected(w) {
      Mtu6to4TextCollected(w, t);
    }
    Mtu6to4TextAnswers(w, t);
    QuestionSound(env, w, t, Mtu6to4, MtuAccepted(t), OnMtu6to4Text(w, t));
  }

  lemma Mtu6to4ButtonSound(env: Env, w: World, data: string)
    requires w.stage == Mtu6to4
    ensures Sound(env, w, Callback(data), OnMtu6to4Button(w, data))
  {
  }

  lemma MtuGreTextSound(env: Env, w: World, t: string)
    requires w.stage == MtuGre
    ensures Sound(env, w, Text(t), OnMtuGreText(env, w, t))
  {
    if Collected(w) {
      MtuGreTextCollected(env, w, t);
    }
    MtuGreTextAnswers(env, w, t);
    QuestionSound(env, w, t, MtuGre, MtuAccepted(t), OnMtuGreText(env, w, t));
  }

  lemma MtuGreButtonSound(env: Env, w: World, data: string)
    requires w.stage == MtuGre
    ensures Sound(env, w, Callback(data), OnMtuGreButton(env, w, data))
  {
    MtuGreButtonKeepsRows(env, w, data);
    if Collected(w) {
      MtuGreButtonCollected(env, w, data);
    }
  }

  lemma CrontabHourTextSound(env: Env, w: World, t: string)
    requires w.stage == CrontabHour
    ensures Sound(env, w, Text(t), OnCrontabHour(env, w, t))
  {
    if Collected(w) {
      CrontabHourCollected(env, w, t);
    }
    CrontabHourAnswers(env, w, t);
    if DistinctIds(w.rows) {
      CrontabKeepsIds(env, w, t);
    }
    QuestionSound(env, w, t, MtuGre, IsValidCrontabHour(Strip(t)), OnCrontabHour(env, w, t));
  }

  // ---------------------------------------------------------------------------
  // One state at a time: the handler the dispatcher picks, and what it keeps.

  lemma StepAtIdle(env: Env, w: World, input: Input, freshId: string)
    requires w.stage == Idle
    ensures Step(env, w, input, freshId) == if input.Callback? then Turn(w, Ignored) else OnIdle(env, w, input.text)
  {
  }

  lemma SoundAtIdle(env: Env, w: World, input: Input, freshId: string)
    requires w.stage == Idle
    ensures Sound(env, w, input, Step(env, w, input, freshId))
  {
    StepAtIdle(env, w, input, freshId);
    if input.Callback? {
      IgnoredSound(env, w, input);
    } else {
      IdleTextSound(env, w, input.text);
    }
  }

  lemma StepAtMainMenu(env: Env, w: World, input: Input, freshId: string)
    requires w.stage == MainMenu
    ensures Step(env, w, input, freshId) == if input.Callback? then Turn(w, Ignored) else OnMainMenu(env, w, input.text, freshId)
  {
  }

  lemma SoundAtMainMenu(env: Env, w: World, input: Input, freshId: string)
    requires w.stage == MainMenu
    ensures Sound(env, w, input, Step(env, w, input, freshId))
  {
    StepAtMainMenu(env, w, input, freshId);
    if input.Callback? {
      IgnoredSound(env, w, input);
    } else {
      MainMenuTextSound(env, w, input.text, freshId);
    }
  }

  lemma StepAtSelectTunnel(env: Env, w: World, input: Input, freshId: string)
    requires w.stage == SelectTunnel
    ensures Step(env, w, input, freshId) == if input.Callback? then Turn(w, Ignored) else OnSelectTunnel(env, w, input.text)
  {
  }

  lemma SoundAtSelectTunnel(env: Env, w: World, input: Input, freshId: string)
    requires w.stage == SelectTunnel
    ensures Sound(env, w, input, Step(env, w, input, freshId))
  {
    StepAtSelectTunnel(env, w, input, freshId);
    if input.Callback? {
      IgnoredSound(env, w, input);
    } else {
      SelectTunnelTextSound(env, w, input.text);
    }
  }

  lemma StepAtDeleteTunnel(env: Env, w: World, input: Input, freshId: string)
    requires w.stage == DeleteTunnel
    ensures Step(env, w, input, freshId) == if input.Callback? then Turn(w, Ignored) else OnDeleteTunnel(env, w, input.text)
  {
  }

  lemma SoundAtDeleteTunnel(env: Env, w: World, input: Input, freshId: string)
    requires w.stage == DeleteTunnel
    ensures Sound(env, w, input, Step(env, w, input, freshId))
  {
    StepAtDeleteTunnel(env, w, input, freshId);
    if input.Callback? {
      IgnoredSound(env, w, input);
    } else {
      DeleteTunnelTextSound(env, w, input.text);
    }
  }

  lemma StepAtTunnelMenu(env: Env, w: World, input: Input, freshId: string)
    requires w.stage == TunnelMenu
    ensures Step(env, w, input, freshId) == if input.Callback? then Turn(w, Ignored) else OnTunnelMenu(w, input.text)
  {
  }

  lemma SoundAtTunnelMenu(env: Env, w: World, input: Input, freshId: string)
    requires w.stage == TunnelMenu
    ensures Sound(env, w, input, Step(env, w, input, freshId))
  {
    StepAtTunnelMenu(env, w, input, freshId);
    if input.Callback? {
      IgnoredSound(env, w, input);
    } else {
      TunnelMenuTextSound(env, w, input.text);
    }
  }

  lemma StepAtTunnelName(env: Env, w: World, input: Input, freshId: string)
    requires w.stage == TunnelName
    ensures Step(env, w, input, freshId) == if input.Callback? then Turn(w, Ignored) else OnStripped(w, input.text, MainMenu, NameKey, TunnelMenu)
  {
  }

  lemma SoundAtTunnelName(env: Env, w: World, input: Input, freshId: string)
    requires w.stage == TunnelName
    ensures Sound(env, w, input, Step(env, w, input, freshId))
  {
    StepAtTunnelName(env, w, input, freshId);
    if input.Callback? {
      IgnoredSound(env, w, input);
    } else {
      TunnelNameTextSound(env, w, input.text);
    }
  }

  lemma StepAtIranServerIP(env: Env, w: World, input: Input, freshId: string)
    requires w.stage == IranServerIP
    ensures Step(env, w, input, freshId) == if input.Callback? then Turn(w, Ignored) else OnAddress(w, input.text, TunnelName, IranServerKey, IranUsername)
  {
  }

  lemma SoundAtIranServerIP(env: Env, w: World, input: Input, freshId: string)
    requires w.stage == IranServerIP
    ensures Sound(env, w, input, Step(env, w, input, freshId))
  {
    StepAtIranServerIP(env, w, input, freshId);
    if input.Callback? {
      IgnoredSound(env, w, input);
    } else {
      IranServerIPTextSound(env, w, input.text);
    }
  }

  lemma StepAtIranUsername(env: Env, w: World, input: Input, freshId: string)
    requires w.stage == IranUsername
    ensures Step(env, w, input, freshId) == if input.Callback? then Turn(w, Ignored) else OnUsername(w, input.text, IranServerIP, IranUserKey, IranPassword)
  {
  }

  lemma SoundAtIranUsername(env: Env, w: World, input: Input, freshId: string)
    requires w.stage == IranUsername
    ensures Sound(env, w, input, Step(env, w, input, freshId))
  {
    StepAtIranUsername(env, w, input, freshId);
    if input.Callback? {
      IgnoredSound(env, w, input);
    } else {
      IranUsernameTextSound(env, w, input.text);
    }
  }

  lemma StepAtIranPassword(env: Env, w: World, input: Input, freshId: string)
    requires w.stage == IranPassword
    ensures Step(env, w, input, freshId) == if input.Callback? then Turn(w, Ignored) else OnIranPassword(env, w, input.text)
  {
  }

  lemma SoundAtIranPassword(env: Env, w: World, input: Input, freshId: string)
    requires w.stage == IranPassword
    ensures Sound(env, w, input, Step(env, w, input, freshId))
  {
    StepAtIranPassword(env, w, input, freshId);
    if input.Callback? {
      IgnoredSound(env, w, input);
    } else {
      IranPasswordTextSound(env, w, input.text);
    }
  }

  lemma StepAtKharejServerIP(env: Env, w: World, input: Input, freshId: string)
    requires w.stage == KharejServerIP
    ensures Step(env, w, input, freshId) == if input.Callback? then Turn(w, Ignored) else OnAddress(w, input.text, IranPassword, KharejServerKey, KharejUsername)
  {
  }

  lemma SoundAtKharejServerIP(env: Env, w: World, input: Input, freshId: string)
    requires w.stage == KharejServerIP
    ensures Sound(env, w, input, Step(env, w, input, freshId))
  {
    StepAtKharejServerIP(env, w, input, freshId);
    if input.Callback? {
      IgnoredSound(env, w, input);
    } else {
      KharejServerIPTextSound(env, w, input.text);
    }
  }

  lemma StepAtKharejUsername(env: Env, w: World, input: Input, freshId: string)
    requires w.stage == KharejUsername
    ensures Step(env, w, input, freshId) == if input.Callback? then Turn(w, Ignored) else OnUsername(w, input.text, KharejServerIP, KharejUserKey, KharejPassword)
  {
  }

  lemma SoundAtKharejUsername(env: Env, w: World, input: Input, freshId: string)
    requires w.stage == KharejUsername
    ensures Sound(env, w, input, Step(env, w, input, freshId))
  {
    StepAtKharejUsername(env, w, input, freshId);
    if input.Callback? {
      IgnoredSound(env, w, input);
    } else {
      KharejUsernameTextSound(env, w, input.text);
    }
  }

  lemma StepAtKharejPassword(env: Env, w: World, input: Input, freshId: string)
    requires w.stage == KharejPassword
    ensures Step(env, w, input, freshId) == if input.Callback? then Turn(w, Ignored) else OnKharejPassword(env, w, input.text)
  {
  }

  lemma SoundAtKharejPassword(env: Env, w: World, input: Input, freshId: string)
    requires w.stage == KharejPassword
    ensures Sound(env, w, input, Step(env, w, input, freshId))
  {
    StepAtKharejPassword(env, w, input, freshId);
    if input.Callback? {
      IgnoredSound(env, w, input);
    } else {
      KharejPasswordTextSound(env, w, input.text);
    }
  }

  lemma StepAtIranIP(env: Env, w: World, input: Input, freshId: string)
    requires w.stage == IranIP
    ensures Step(env, w, input, freshId) == if input.Callback? then Turn(w, Ignored) else OnAddress(w, input.text, KharejPassword, IranIpKey, KharejIP)
  {
  }

  lemma SoundAtIranIP(env: Env, w: World, input: Input, freshId: string)
    requires w.stage == IranIP
    ensures Sound(env, w, input, Step(env, w, input, freshId))
  {
    StepAtIranIP(env, w, input, freshId);
    if input.Callback? {
      IgnoredSound(env, w, input);
    } else {
      IranIPTextSound(env, w, input.text);
    }
  }

  lemma StepAtKharejIP(env: Env, w: World, input: Input, freshId: string)
    requires w.stage == KharejIP
    ensures Step(env, w, input, freshId) == if input.Callback? then Turn(w, Ignored) else OnAddress(w, input.text, IranIP, KharejIpKey, PSK)
  {
  }

  lemma SoundAtKharejIP(env: Env, w: World, input: Input, freshId: string)
    requires w.stage == KharejIP
    ensures Sound(env, w, input, Step(env, w, input, freshId))
  {
    StepAtKharejIP(env, w, input, freshId);
    if input.Callback? {
      IgnoredSound(env, w, input);
    } else {
      KharejIPTextSound(env, w, input.text);
    }
  }

  lemma StepAtPSK(env: Env, w: World, input: Input, freshId: string)
    requires w.stage == PSK
    ensures Step(env, w, input, freshId) == if input.Callback? then Turn(w, Ignored) else OnStripped(w, input.text, KharejIP, PskKey, Mtu6to4)
  {
  }

  lemma SoundAtPSK(env: Env, w: World, input: Input, freshId: string)
    requires w.stage == PSK
    ensures Sound(env, w, input, Step(env, w, input, freshId))
  {
    StepAtPSK(env, w, input, freshId);
    if input.Callback? {
      IgnoredSound(env, w, input);
    } else {
      PSKTextSound(env, w, input.text);
    }
  }

  lemma StepAtMtu6to4(env: Env, w: World, input: Input, freshId: string)
    requires w.stage == Mtu6to4
    ensures Step(env, w, input, freshId) == if input.Callback? then OnMtu6to4Button(w, input.data) else OnMtu6to4Text(w, input.text)
  {
  }

  lemma SoundAtMtu6to4(env: Env, w: World, input: Input, freshId: string)
    requires w.stage == Mtu6to4
    ensures Sound(env, w, input, Step(env, w, input, freshId))
  {
    StepAtMtu6to4(env, w, input, freshId);
    if input.Callback? {
      Mtu6to4ButtonSound(env, w, input.data);
    } else {
      Mtu6to4TextSound(env, w, input.text);
    }
  }

  lemma StepAtMtuGre(env: Env, w: World, input: Input, freshId: string)
    requires w.stage == MtuGre
    ensures Step(env, w, input, freshId) == if input.Callback? then OnMtuGreButton(env, w, input.data) else OnMtuGreText(env, w, input.text)
  {
  }

  lemma SoundAtMtuGre(env: Env, w: World, input: Input, freshId: string)
    requires w.stage == MtuGre
    ensures Sound(env, w, input, Step(env, w, input, freshId))
  {
    StepAtMtuGre(env, w, input, freshId);
    if input.Callback? {
      MtuGreButtonSound(env, w, input.data);
    } else {
      MtuGreTextSound(env, w, input.text);
    }
  }

  lemma StepAtCrontabHour(env: Env, w: World, input: Input, freshId: string)
    requires w.stage == CrontabHour
    ensures Step(env, w, input, freshId) == if input.Callback? then Turn(w, Ignored) else OnCrontabHour(env, w, input.text)
  {
  }

  lemma SoundAtCrontabHour(env: Env, w: World, input: Input, freshId: string)
    requires w.stage == CrontabHour
    ensures Sound(env, w, input, Step(env, w, input, freshId))
  {
    StepAtCrontabHour(env, w, input, freshId);
    if input.Callback? {
      IgnoredSound(env, w, input);
    } else {
      CrontabHourTextSound(env, w, input.text);
    }
  }

  /** Every message, in every state, keeps each of the guarantees above. */
  lemma StepIsSound(env: Env, w: World, input: Input, freshId: string)
    ensures Sound(env, w, input, Step(env, w, input, freshId))
  {
    match w.stage
    case Idle => SoundAtIdle(env, w, input, freshId);
    case MainMenu => SoundAtMainMenu(env, w, input, freshId);
    case SelectTunnel => SoundAtSelectTunnel(env, w, input, freshId);
    case DeleteTunnel => SoundAtDeleteTunnel(env, w, input, freshId);
    case TunnelMenu => SoundAtTunnelMenu(env, w, input, freshId);
    case TunnelName => SoundAtTunnelName(env, w, input, freshId);
    case IranServerIP => SoundAtIranServerIP(env, w, input, freshId);
    case IranUsername => SoundAtIranUsername(env, w, input, freshId);
    case IranPassword => SoundAtIranPassword(env, w, input, freshId);
    case KharejServerIP => SoundAtKharejServerIP(env, w, input, freshId);
    case KharejUsername => SoundAtKharejUsername(env, w, input, freshId);
    case KharejPassword => SoundAtKharejPassword(env, w, input, freshId);
    case IranIP => SoundAtIranIP(env, w, input, freshId);
    case KharejIP => SoundAtKharejIP(env, w, input, freshId);
    case PSK => SoundAtPSK(env, w, input, freshId);
    case Mtu6to4 => SoundAtMtu6to4(env, w, input, freshId);
    case MtuGre => SoundAtMtuGre(env, w, input, freshId);
    case CrontabHour => SoundAtCrontabHour(env, w, input, freshId);
  }

  // ---------------------------------------------------------------------------
  // The guarantees one at a time.

  /** The home key, in any question, drops the data and shows the main menu. */
  lemma HomeFromAnyQuestion(env: Env, w: World, freshId: string)
    requires IsQuestion(w.stage)
    ensures Step(env, w, Text(HomeToken), freshId) == BackToMain(w)
  {
    StepIsSound(env, w, Text(HomeToken), freshId);
  }

  /** Back, in any question, asks the previous question again and keeps the data. */
  lemma BackFromAnyQuestion(env: Env, w: World, freshId: string)
    requires IsQuestion(w.stage)
    ensures Step(env, w, BackInput(w.stage), freshId) == Turn(w.(stage := Predecessor(w.stage)), Prompted)
  {
    StepIsSound(env, w, BackInput(w.stage), freshId);
  }

  /** An answer is rejected exactly when the question does not accept it, and a rejection changes nothing. */
  lemma RejectedIff(env: Env, w: World, t: string, freshId: string)
    requires IsQuestion(w.stage) && t != HomeToken && t != BackToken
    ensures var u := Step(env, w, Text(t), freshId);
            (u.reply.Rejected? <==> !Accepts(w.stage, t)) && (u.reply.Rejected? ==> u.world == w)
  {
    StepIsSound(env, w, Text(t), freshId);
  }

  /** A caller without access cannot leave the idle state, and a menu message ends their session. */
  lemma NoAccessGuards(env: Env, w: World, input: Input, freshId: string)
    requires AccessOf(env).None?
    ensures w.stage == Idle ==> Step(env, w, input, freshId).world == w
    ensures IsMenu(w.stage) && input.Text? ==>
              Step(env, w, input, freshId) == Turn(w.(stage := Idle, draft := EmptyDraft), Unauthorized)
  {
    StepIsSound(env, w, input, freshId);
  }

  // ---------------------------------------------------------------------------
  // Runs of messages.

  /** One update: the input and the id `uuid4()` would draw if the handler asked for one. */
  datatype Message = Message(input: Input, freshId: string)

  /** The chat after a run of messages, and the bot's replies in order. */
  datatype Trace = Trace(world: World, replies: seq<Reply>)

  function Run(env: Env, w: World, msgs: seq<Message>): (r: Trace)
    ensures |r.replies| == |msgs|
    decreases |msgs|
  {
    if msgs == [] then Trace(w, [])
    else
      var u := Step(env, w, msgs[0].input, msgs[0].freshId);
      var rest := Run(env, u.world, msgs[1..]);
      Trace(rest.world, [u.reply] + rest.replies)
  }

  /**
   * From a chat that holds what its stage needs and a table with distinct ids, no run of
   * messages ever raises a `KeyError` or breaks the primary key.
   */
  lemma {:induction false} RunKeepsInvariants(env: Env, w: World, msgs: seq<Message>)
    requires Collected(w) && DistinctIds(w.rows)
    ensures var r := Run(env, w, msgs);
            Collected(r.world) && DistinctIds(r.world.rows)
            && forall i :: 0 <= i < |r.replies| ==> !r.replies[i].Crashed?
    decreases |msgs|
  {
    if msgs != [] {
      var u := Step(env, w, msgs[0].input, msgs[0].freshId);
      StepIsSound(env, w, msgs[0].input, msgs[0].freshId);
      RunKeepsInvariants(env, u.world, msgs[1..]);
    }
  }

  /** In particular, a new chat never crashes, whatever is sent to it. */
  lemma FreshNeverCrashes(env: Env, rows: seq<Tunnel>, log: seq<Event>, msgs: seq<Message>)
    requires DistinctIds(rows)
    ensures var r := Run(env, Fresh(rows, log), msgs);
            DistinctIds(r.world.rows) && forall i :: 0 <= i < |r.replies| ==> !r.replies[i].Crashed?
  {
    RunKeepsInvariants(env, Fresh(rows, log), msgs);
  }

  /** A caller without access changes nothing, however many messages they send. */
  lemma {:induction false} NoAccessRun(env: Env, w: World, msgs: seq<Message>)
    requires AccessOf(env).None? && w.stage == Idle
    ensures Run(env, w, msgs).world == w
    decreases |msgs|
  {
    if msgs != [] {
      NoAccessGuards(env, w, msgs[0].input, msgs[0].freshId);
      NoAccessRun(env, w, msgs[1..]);
    }
  }
}
