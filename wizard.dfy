/**
 * The conversation of one Telegram user with the bot, as a transition function: the
 * `ServerConfig` state, the FSM data collected so far, the `tunnels` table and the history
 * of everything sent to the servers, and what one message or button press does to them.
 */
module Wizard {
  import opened Options
  import opened Text
  import opened Validators
  import opened Executor
  import opened Remote
  import opened Roles
  import opened Health
  import opened Render
  import opened Store

  // ---------------------------------------------------------------------------
  // Keyboard texts the handlers compare the message with.

  const HomeToken: string := "\U{1F3E0} بازگشت به منوی اصلی"
  const BackToken: string := "\U{2B05}\U{FE0F} بازگشت به مرحله قبل"
  const MenuBackToken: string := "\U{2B05}\U{FE0F} بازگشت به منوی اصلی"
  const NewTunnelToken: string := "\U{1F680} ساخت تونل جدید"
  const StatusToken: string := "\U{1F4CA} بررسی وضعیت تونل\U{200C}ها"
  const DeleteToken: string := "\U{1F5D1} حذف تونل"
  const OneToOneToken: string := "\U{1F517} تونل 1 ایران به 1 خارج"
  const StartCommand: string := "/start"

  /** The `ServerConfig` states, and `Idle` for a chat with no state set. */
  datatype Stage =
    | Idle | MainMenu | TunnelMenu | TunnelName
    | IranServerIP | IranUsername | IranPassword
    | KharejServerIP | KharejUsername | KharejPassword
    | IranIP | KharejIP | PSK | Mtu6to4 | MtuGre | CrontabHour
    | SelectTunnel | DeleteTunnel

  /** The keys of the FSM data dictionary. */
  datatype Key =
    | IdKey | NameKey
    | IranServerKey | IranUserKey | IranPasswordKey
    | KharejServerKey | KharejUserKey | KharejPasswordKey
    | IranIpKey | KharejIpKey | IranIpv6Key | KharejIpv6Key
    | PskKey | Mtu6to4Key | MtuGreKey | CrontabHourKey
    | UserIdKey

  /** The dictionary key as the handlers spell it. */
  function KeyName(k: Key): string {
    match k
    case IdKey => "tunnel_id"
    case NameKey => "tunnel_name"
    case IranServerKey => "iran_server_ip"
    case IranUserKey => "iran_username"
    case IranPasswordKey => "iran_password"
    case KharejServerKey => "kharej_server_ip"
    case KharejUserKey => "kharej_username"
    case KharejPasswordKey => "kharej_password"
    case IranIpKey => "iran_ip"
    case KharejIpKey => "kharej_ip"
    case IranIpv6Key => "iran_ipv6"
    case KharejIpv6Key => "kharej_ipv6"
    case PskKey => "psk"
    case Mtu6to4Key => "mtu_6to4"
    case MtuGreKey => "mtu_gre"
    case CrontabHourKey => "crontab_hour"
    case UserIdKey => "user_id"
  }

  /** The FSM data: the text values under their keys, and the number under `user_id`. */
  datatype Draft = Draft(fields: map<Key, string>, userId: Option<int>)

  const EmptyDraft: Draft := Draft(map[], None)

  /** A value read from the data, or the key whose lookup raised a `KeyError`. */
  datatype Read<T> = Present(value: T) | KeyError(key: Key)

  /** `state.update_data(key=value)`. */
  function Set(d: Draft, key: Key, value: string): Draft {
    d.(fields := d.fields[key := value])
  }

  /** What the bot was configured with and who is talking to it. */
  datatype Env = Env(adminId: int, allowed: set<int>, user: int, oracle: Oracle)

  function AccessOf(env: Env): Option<Access> {
    CheckUserAccess(env.user, env.adminId, env.allowed)
  }

  /** A text message, or a press of an inline button carrying its callback data. */
  datatype Input = Text(text: string) | Callback(data: string)

  /** Everything the handlers keep: the chat's state and data, the table, the servers' history. */
  datatype World = World(stage: Stage, draft: Draft, rows: seq<Tunnel>, log: seq<Event>)

  /** What the bot answers, reduced to the branch the handler took. */
  datatype Reply =
    | Ignored              // no handler is registered for the input in this state
    | Welcome
    | Prompted             // the next question, or the same one again
    | AtMainMenu           // `back_to_main_menu`
    | Rejected             // the input failed validation; the question is repeated
    | Unauthorized
    | Menu(labels: seq<string>)
    | NoTunnels
    | NotFound
    | Status(name: string, iran: Health, kharej: Health)
    | ConnectFailed
    | Failed(result: string)
    | Configured
    | Installed
    | Removed
    | Duplicate            // the INSERT raised an integrity error
    | Crashed(key: Key)    // a dictionary lookup raised a `KeyError`

  datatype Turn = Turn(world: World, reply: Reply)

  // ---------------------------------------------------------------------------
  // Reading the FSM data.

  /** The first key of the list that the data lacks: the `KeyError` a run of lookups raises. */
  function Missing(d: Draft, keys: seq<Key>): (r: Option<Key>)
    ensures r.None? <==> forall k :: k in keys ==> k in d.fields
    ensures r.Some? ==> r.value !in d.fields && r.value in keys
  {
    if keys == [] then None
    else if keys[0] !in d.fields then Some(keys[0])
    else Missing(d, keys[1..])
  }

  /** The key reported is the first one the data lacks, as the lookups run in list order. */
  lemma {:induction false} MissingFirst(d: Draft, keys: seq<Key>, i: nat)
    requires i < |keys| && keys[i] !in d.fields
    requires forall j :: 0 <= j < i ==> keys[j] in d.fields
    ensures Missing(d, keys) == Some(keys[i])
  {
    if i > 0 {
      MissingFirst(d, keys[1..], i - 1);
    }
  }

  function ServerKeys(side: Side): seq<Key> {
    match side
    case Iran => [IranServerKey, IranUserKey, IranPasswordKey]
    case Kharej => [KharejServerKey, KharejUserKey, KharejPasswordKey]
  }

  /** The login details of one server, as the handlers read them from the data. */
  function ServerHost(d: Draft, side: Side): Host
    requires Missing(d, ServerKeys(side)).None?
  {
    var keys := ServerKeys(side);
    Host(d.fields[keys[0]], d.fields[keys[1]], d.fields[keys[2]])
  }

  /** The lookups at the top of `process_config_files`, in their order. */
  const ConfigKeys: seq<Key> :=
    [ IranServerKey, IranUserKey, IranPasswordKey, KharejServerKey, KharejUserKey, KharejPasswordKey,
      IranIpKey, KharejIpKey, PskKey, Mtu6to4Key, MtuGreKey ]

  /** The lookups of `save_to_db` that follow `user_id`, in their order. */
  const RecordKeys: seq<Key> :=
    [ IranServerKey, IranUserKey, IranPasswordKey, KharejServerKey, KharejUserKey, KharejPasswordKey,
      IranIpKey, KharejIpKey, IranIpv6Key, KharejIpv6Key, PskKey, Mtu6to4Key, MtuGreKey ]

  /** The lookups of the two servers' login details, Iran's first. */
  const LoginKeys: seq<Key> :=
    [ IranServerKey, IranUserKey, IranPasswordKey, KharejServerKey, KharejUserKey, KharejPasswordKey ]

  /** The prerequisites installed on both servers once both logins have been tested. */
  function PrerequisitePlan(d: Draft): Plan
    requires Missing(d, ServerKeys(Iran)).None? && Missing(d, ServerKeys(Kharej)).None?
  {
    Plan(ServerHost(d, Iran), ServerHost(d, Kharej), Prerequisites, Prerequisites)
  }

  /** The configuration `process_config_files` renders from the collected values. */
  function ConfigPlan(d: Draft): Plan
    requires Missing(d, ConfigKeys).None?
  {
    var f := d.fields;
    Plan(ServerHost(d, Iran), ServerHost(d, Kharej),
         ApplyCommands(Iran, f[IranIpKey], f[KharejIpKey], f[PskKey], f[Mtu6to4Key], f[MtuGreKey]),
         ApplyCommands(Kharej, f[KharejIpKey], f[IranIpKey], f[PskKey], f[Mtu6to4Key], f[MtuGreKey]))
  }

  /** The daily reset added on both servers. */
  function CrontabPlan(d: Draft, h: string): Plan
    requires Missing(d, LoginKeys).None?
  {
    Plan(ServerHost(d, Iran), ServerHost(d, Kharej), [CrontabCommand(h)], [CrontabCommand(h)])
  }

  /** The teardown of a stored tunnel. */
  function CleanupPlan(r: Tunnel): Plan {
    Plan(r.iranServer, r.kharejServer, CleanupCommands(Iran), CleanupCommands(Kharej))
  }

  /** A two-host run: the command list for the Iran server, then the one for the Kharej server. */
  datatype Plan = Plan(iran: Host, kharej: Host, iranCmds: seq<string>, kharejCmds: seq<string>)

  /** The fail-fast loop over the Iran server, then, unless it stopped, the one over Kharej. */
  function RunPlan(o: Oracle, h: seq<Event>, p: Plan): BatchEnd {
    Both(o, h, p.iran, p.kharej, p.iranCmds, p.kharejCmds)
  }

  /** Every command of the plan, run in order, succeeds. */
  predicate PlanSucceeds(o: Oracle, h: seq<Event>, p: Plan) {
    AllSucceed(o, h, p.iran, p.iranCmds) && AllSucceed(o, h + Runs(p.iran, p.iranCmds), p.kharej, p.kharejCmds)
  }

  /** The history after a plan's run: Iran's commands in order, and Kharej's only after all of them succeeded. */
  predicate PlanOrdered(o: Oracle, h: seq<Event>, p: Plan, log: seq<Event>) {
    Ordered(o, h, p.iran, p.kharej, p.iranCmds, p.kharejCmds, log)
  }

  /** A plan's run stops with a failure exactly when some command fails, and runs the commands in order. */
  lemma PlanFailsFast(o: Oracle, h: seq<Event>, p: Plan)
    ensures RunPlan(o, h, p).failure.None? <==> PlanSucceeds(o, h, p)
    ensures PlanOrdered(o, h, p, RunPlan(o, h, p).log)
  {
    BothSucceedsIff(o, h, p.iran, p.kharej, p.iranCmds, p.kharejCmds);
    BothOrder(o, h, p.iran, p.kharej, p.iranCmds, p.kharejCmds);
  }

  // ---------------------------------------------------------------------------
  // The handlers.

  /** `back_to_main_menu`: `state.finish()` drops the data, then the main menu is shown. */
  function BackToMain(w: World): Turn {
    Turn(w.(stage := MainMenu, draft := EmptyDraft), AtMainMenu)
  }

  /** The two checks at the top of every text-input handler: home, and back to `back`. */
  function Navigate(w: World, t: string, back: Stage): Option<Turn> {
    if t == HomeToken then Some(BackToMain(w))
    else if t == BackToken then Some(Turn(w.(stage := back), Prompted))
    else None
  }

  /** `start_command`, the only handler for a chat with no state. */
  function OnIdle(env: Env, w: World, t: string): Turn {
    if t != StartCommand then Turn(w, Ignored)
    else if AccessOf(env).None? then Turn(w, Unauthorized)
    else Turn(w.(stage := MainMenu), Welcome)
  }

  /** `main_menu`. */
  function OnMainMenu(env: Env, w: World, t: string, freshId: string): Turn {
    match AccessOf(env)
    case None => Turn(w.(stage := Idle, draft := EmptyDraft), Unauthorized)
    case Some(access) =>
      if t == NewTunnelToken then
        Turn(w.(stage := TunnelName, draft := Draft(w.draft.fields[IdKey := freshId], Some(env.user))), Prompted)
      else if t == StatusToken || t == DeleteToken then
        var labels := Labels(w.rows, access, env.user);
        if labels == [] then Turn(w, NoTunnels)
        else Turn(w.(stage := if t == StatusToken then SelectTunnel else DeleteTunnel), Menu(labels))
      else Turn(w, Rejected)
  }

  /** `select_tunnel`: check the Iran end towards Kharej's GRE address, then the reverse. */
  function OnSelectTunnel(env: Env, w: World, t: string): Turn {
    match AccessOf(env)
    case None => Turn(w.(stage := Idle, draft := EmptyDraft), Unauthorized)
    case Some(access) =>
      if t == MenuBackToken then BackToMain(w)
      else
        var name := NameOfLabel(t);
        match FindByName(w.rows, name, OwnerFilter(access, env.user))
        case None => Turn(w.(stage := MainMenu), NotFound)
        case Some(r) =>
          var iran := PingSpec(env.oracle, w.log, r.iranServer, GreAddress(Kharej));
          var kharej := PingSpec(env.oracle, iran.log, r.kharejServer, GreAddress(Iran));
          Turn(w.(stage := MainMenu, log := kharej.log), Status(name, iran.health, kharej.health))
  }

  /** `delete_tunnel`: clean up both ends, and only then drop the row. */
  function OnDeleteTunnel(env: Env, w: World, t: string): Turn {
    match AccessOf(env)
    case None => Turn(w.(stage := Idle, draft := EmptyDraft), Unauthorized)
    case Some(access) =>
      if t == MenuBackToken then BackToMain(w)
      else
        match FindByName(w.rows, NameOfLabel(t), OwnerFilter(access, env.user))
        case None => Turn(w.(stage := MainMenu), NotFound)
        case Some(r) =>
          var e := RunPlan(env.oracle, w.log, CleanupPlan(r));
          if e.failure.Some? then Turn(w.(stage := MainMenu, log := e.log), Failed(e.failure.value))
          else Turn(w.(stage := MainMenu, rows := WithoutId(w.rows, r.id), log := e.log), Removed)
  }

  /** `tunnel_menu`: the only text-input stage without the home and back checks. */
  function OnTunnelMenu(w: World, t: string): Turn {
    if t == OneToOneToken then Turn(w.(stage := IranServerIP), Prompted)
    else if t == MenuBackToken then BackToMain(w)
    else Turn(w, Rejected)
  }

  /** `process_tunnel_name` and `process_psk`: the stripped text, which must not be empty. */
  function OnStripped(w: World, t: string, back: Stage, key: Key, next: Stage): Turn {
    match Navigate(w, t, back)
    case Some(turn) => turn
    case None =>
      if Strip(t) == [] then Turn(w, Rejected)
      else Turn(w.(stage := next, draft := Set(w.draft, key, Strip(t))), Prompted)
  }

  /** The four address stages: the stripped text is validated, the raw text is stored. */
  function OnAddress(w: World, t: string, back: Stage, key: Key, next: Stage): Turn {
    match Navigate(w, t, back)
    case Some(turn) => turn
    case None =>
      if !IsValidIp(Strip(t)) then Turn(w, Rejected)
      else Turn(w.(stage := next, draft := Set(w.draft, key, t)), Prompted)
  }

  /** The two username stages: anything is taken as it is. */
  function OnUsername(w: World, t: string, back: Stage, key: Key, next: Stage): Turn {
    match Navigate(w, t, back)
    case Some(turn) => turn
    case None => Turn(w.(stage := next, draft := Set(w.draft, key, t)), Prompted)
  }

  /** `process_iran_password`: store the password and test a login to the Iran server. */
  function OnIranPassword(env: Env, w: World, t: string): Turn {
    match Navigate(w, t, IranUsername)
    case Some(turn) => turn
    case None =>
      var d := Set(w.draft, IranPasswordKey, t);
      match Missing(d, ServerKeys(Iran))
      case Some(k) => Turn(w.(draft := d), Crashed(k))
      case None =>
        var host := ServerHost(d, Iran);
        var log := w.log + [Connect(host)];
        if env.oracle(w.log, Connect(host)).Raised? then BackToMain(w.(log := log)).(reply := ConnectFailed)
        else Turn(w.(stage := KharejServerIP, draft := d, log := log), Prompted)
  }

  /**
   * `process_kharej_password`: store the password, test a login to the Kharej server, then
   * install the prerequisites on the Iran server and on the Kharej server.
   */
  function OnKharejPassword(env: Env, w: World, t: string): Turn {
    match Navigate(w, t, KharejUsername)
    case Some(turn) => turn
    case None =>
      var d := Set(w.draft, KharejPasswordKey, t);
      match Missing(d, ServerKeys(Kharej))
      case Some(k) => Turn(w.(draft := d), Crashed(k))
      case None =>
        var kharej := ServerHost(d, Kharej);
        var log := w.log + [Connect(kharej)];
        if env.oracle(w.log, Connect(kharej)).Raised? then BackToMain(w.(log := log)).(reply := ConnectFailed)
        else
          match Missing(d, ServerKeys(Iran))
          case Some(k) => Turn(w.(draft := d, log := log), Crashed(k))
          case None =>
            var e := RunPlan(env.oracle, log, PrerequisitePlan(d));
            if e.failure.Some? then BackToMain(w.(log := e.log)).(reply := Failed(e.failure.value))
            else Turn(w.(stage := IranIP, draft := d, log := e.log), Prompted)
  }

  /**
   * `process_config_files`: read the collected values, add the fixed IPv6 addresses, then
   * configure the Iran end and the Kharej end.
   */
  function ProcessConfig(env: Env, w: World): Turn {
    match Missing(w.draft, ConfigKeys)
    case Some(k) => Turn(w, Crashed(k))
    case None =>
      AfterConfig(w, RunPlan(env.oracle, w.log, ConfigPlan(w.draft)))
  }

  /** The end of `process_config_files` once both configuration loops have run or stopped. */
  function AfterConfig(w: World, e: BatchEnd): Turn {
    if e.failure.Some? then BackToMain(w.(log := e.log)).(reply := Failed(e.failure.value))
    else
      var d := Set(Set(w.draft, IranIpv6Key, Ipv6(Iran)), KharejIpv6Key, Ipv6(Kharej));
      Turn(w.(stage := CrontabHour, draft := d, log := e.log), Configured)
  }

  /** `process_mtu_6to4_selection`, reached only for its four callback values. */
  function OnMtu6to4Button(w: World, data: string): Turn {
    if data == "back_to_main" then BackToMain(w)
    else if data == "back_to_psk" then Turn(w.(stage := PSK), Prompted)
    else if data == "mtu_6to4_default" then Turn(w.(stage := MtuGre, draft := Set(w.draft, Mtu6to4Key, "1480")), Prompted)
    else if data == "mtu_6to4_manual" then Turn(w, Prompted)
    else Turn(w, Ignored)
  }

  /** `process_mtu_gre_selection`, reached only for its four callback values. */
  function OnMtuGreButton(env: Env, w: World, data: string): Turn {
    if data == "back_to_main" then BackToMain(w)
    else if data == "back_to_mtu_6to4" then Turn(w.(stage := Mtu6to4), Prompted)
    else if data == "mtu_gre_default" then ProcessConfig(env, w.(draft := Set(w.draft, MtuGreKey, "1424")))
    else if data == "mtu_gre_manual" then Turn(w, Prompted)
    else Turn(w, Ignored)
  }

  /** `process_manual_mtu_6to4`: back stays on this question. */
  function OnMtu6to4Text(w: World, t: string): Turn {
    match Navigate(w, t, Mtu6to4)
    case Some(turn) => turn
    case None =>
      if MtuAccepted(t) then Turn(w.(stage := MtuGre, draft := Set(w.draft, Mtu6to4Key, t)), Prompted)
      else Turn(w, Rejected)
  }

  /** `process_manual_mtu_gre`: an accepted value goes straight on to the configuration. */
  function OnMtuGreText(env: Env, w: World, t: string): Turn {
    match Navigate(w, t, MtuGre)
    case Some(turn) => turn
    case None =>
      if MtuAccepted(t) then ProcessConfig(env, w.(draft := Set(w.draft, MtuGreKey, t)))
      else Turn(w, Rejected)
  }

  /** The record `save_to_db` inserts, or the first key it misses. */
  function RecordOf(d: Draft): Read<Tunnel> {
    match Missing(d, [IdKey, NameKey])
    case Some(k) => KeyError(k)
    case None =>
      if d.userId.None? then KeyError(UserIdKey)
      else
        match Missing(d, RecordKeys)
        case Some(k) => KeyError(k)
        case None => Present(Record(d))
  }

  /** The record of a draft that holds every field `save_to_db` reads. */
  function Record(d: Draft): Tunnel
    requires Missing(d, [IdKey, NameKey]).None? && d.userId.Some? && Missing(d, RecordKeys).None?
  {
    var f := d.fields;
    Tunnel(f[IdKey], f[NameKey], d.userId.value, ServerHost(d, Iran), ServerHost(d, Kharej),
           f[IranIpKey], f[KharejIpKey], f[IranIpv6Key], f[KharejIpv6Key],
           f[PskKey], f[Mtu6to4Key], f[MtuGreKey], if CrontabHourKey in f then f[CrontabHourKey] else "")
  }

  /**
   * `process_crontab_hour`: save the tunnel, then add the daily reset on both servers; the
   * chat returns to the main menu whether or not the crontab commands succeed.
   */
  function OnCrontabHour(env: Env, w: World, t: string): Turn {
    match Navigate(w, t, MtuGre)
    case Some(turn) => turn
    case None =>
      var h := Strip(t);
      if !IsValidCrontabHour(h) then Turn(w, Rejected)
      else
        match Missing(w.draft, LoginKeys)
        case Some(k) => Turn(w, Crashed(k))
        case None =>
          var d := Set(w.draft, CrontabHourKey, h);
          match RecordOf(d)
          case KeyError(k) => Turn(w.(draft := d), Crashed(k))
          case Present(record) =>
            if HasId(w.rows, record.id) then Turn(w.(draft := d), Duplicate)
            else
              var e := RunPlan(env.oracle, w.log, CrontabPlan(w.draft, h));
              var after := World(MainMenu, EmptyDraft, w.rows + [record], e.log);
              if e.failure.Some? then Turn(after, Failed(e.failure.value)) else Turn(after, Installed)
  }

  /** The dispatcher: the handler registered for the input's kind in the chat's state. */
  function Step(env: Env, w: World, input: Input, freshId: string): Turn {
    match input
    case Callback(data) =>
      if w.stage == Mtu6to4 then OnMtu6to4Button(w, data)
      else if w.stage == MtuGre then OnMtuGreButton(env, w, data)
      else Turn(w, Ignored)
    case Text(t) =>
      match w.stage
      case Idle => OnIdle(env, w, t)
      case MainMenu => OnMainMenu(env, w, t, freshId)
      case SelectTunnel => OnSelectTunnel(env, w, t)
      case DeleteTunnel => OnDeleteTunnel(env, w, t)
      case TunnelName => OnStripped(w, t, MainMenu, NameKey, TunnelMenu)
      case TunnelMenu => OnTunnelMenu(w, t)
      case IranServerIP => OnAddress(w, t, TunnelName, IranServerKey, IranUsername)
      case IranUsername => OnUsername(w, t, IranServerIP, IranUserKey, IranPassword)
      case IranPassword => OnIranPassword(env, w, t)
      case KharejServerIP => OnAddress(w, t, IranPassword, KharejServerKey, KharejUsername)
      case KharejUsername => OnUsername(w, t, KharejServerIP, KharejUserKey, KharejPassword)
      case KharejPassword => OnKharejPassword(env, w, t)
      case IranIP => OnAddress(w, t, KharejPassword, IranIpKey, KharejIP)
      case KharejIP => OnAddress(w, t, IranIP, KharejIpKey, PSK)
      case PSK => OnStripped(w, t, KharejIP, PskKey, Mtu6to4)
      case Mtu6to4 => OnMtu6to4Text(w, t)
      case MtuGre => OnMtuGreText(env, w, t)
      case CrontabHour => OnCrontabHour(env, w, t)
  }

  // ---------------------------------------------------------------------------
  // What each stage has collected.

  /** Where each answer comes in the order the wizard asks for them. */
  function Position(k: Key): nat {
    match k
    case IdKey => 0
    case NameKey => 1
    case IranServerKey => 2
    case IranUserKey => 3
    case IranPasswordKey => 4
    case KharejServerKey => 5
    case KharejUserKey => 6
    case KharejPasswordKey => 7
    case IranIpKey => 8
    case KharejIpKey => 9
    case PskKey => 10
    case Mtu6to4Key => 11
    case MtuGreKey => 12
    case IranIpv6Key => 13
    case KharejIpv6Key => 14
    case CrontabHourKey => 15
    case UserIdKey => 16
  }

  /** How many answers, in that order, the data holds on entering each stage. */
  function Rank(s: Stage): nat {
    match s
    case TunnelName => 1
    case TunnelMenu => 2
    case IranServerIP => 2
    case IranUsername => 3
    case IranPassword => 4
    case KharejServerIP => 5
    case KharejUsername => 6
    case KharejPassword => 7
    case IranIP => 8
    case KharejIP => 9
    case PSK => 10
    case Mtu6to4 => 11
    case MtuGre => 12
    case CrontabHour => 15
    case _ => 0
  }

  /** The data holds the first n answers, in the order the wizard asks for them. */
  predicate Answered(f: map<Key, string>, n: nat) {
    (n > 0 ==> IdKey in f) && (n > 1 ==> NameKey in f)
    && (n > 2 ==> IranServerKey in f) && (n > 3 ==> IranUserKey in f) && (n > 4 ==> IranPasswordKey in f)
    && (n > 5 ==> KharejServerKey in f) && (n > 6 ==> KharejUserKey in f) && (n > 7 ==> KharejPasswordKey in f)
    && (n > 8 ==> IranIpKey in f) && (n > 9 ==> KharejIpKey in f) && (n > 10 ==> PskKey in f)
    && (n > 11 ==> Mtu6to4Key in f) && (n > 12 ==> MtuGreKey in f)
    && (n > 13 ==> IranIpv6Key in f) && (n > 14 ==> KharejIpv6Key in f)
  }

  /** The data holds every earlier answer of its stage, and inside the wizard the owner's id. */
  predicate Collected(w: World) {
    Answered(w.draft.fields, Rank(w.stage)) && (Rank(w.stage) > 0 ==> w.draft.userId.Some?)
  }

  /** A chat before its first message. */
  function Fresh(rows: seq<Tunnel>, log: seq<Event>): (w: World)
    ensures Collected(w) && w.stage == Idle
  {
    World(Idle, EmptyDraft, rows, log)
  }

  /** Going back to an earlier question keeps what the data holds. */
  lemma Revisit(w: World, s: Stage)
    requires Collected(w) && Rank(s) <= Rank(w.stage)
    ensures Collected(w.(stage := s))
  {
  }

  /** Storing the next answer in order lets the wizard move on to the next question. */
  lemma Answer(w: World, key: Key, v: string, next: Stage)
    requires Collected(w) && Rank(w.stage) > 0 && Position(key) == Rank(w.stage) && Rank(next) == Rank(w.stage) + 1
    ensures Collected(w.(stage := next, draft := Set(w.draft, key, v)))
  {
  }

  /** Storing any further value keeps what the data holds. */
  lemma Extra(w: World, key: Key, v: string)
    requires Collected(w)
    ensures Collected(w.(draft := Set(w.draft, key, v)))
  {
    AnsweredExtra(w.draft.fields, Rank(w.stage), key, v);
  }

  lemma AnsweredExtra(f: map<Key, string>, n: nat, key: Key, v: string)
    requires Answered(f, n)
    ensures Answered(f[key := v], n)
  {
  }

  /** The order of questions each text-input handler is registered with. */
  predicate InOrder(w: World, back: Stage, key: Key, next: Stage) {
    Rank(back) <= Rank(w.stage) && Rank(w.stage) > 0 && Position(key) == Rank(w.stage) && Rank(next) == Rank(w.stage) + 1
  }

  lemma NavigateCollected(w: World, t: string, back: Stage)
    requires Collected(w) && Rank(back) <= Rank(w.stage)
    ensures Navigate(w, t, back).Some? ==> Collected(Navigate(w, t, back).value.world)
  {
    if t != HomeToken && t == BackToken {
      Revisit(w, back);
    }
  }

  lemma StrippedCollected(w: World, t: string, back: Stage, key: Key, next: Stage)
    requires Collected(w) && InOrder(w, back, key, next)
    ensures var u := OnStripped(w, t, back, key, next); Collected(u.world) && !u.reply.Crashed?
  {
    NavigateCollected(w, t, back);
    Answer(w, key, Strip(t), next);
  }

  lemma AddressCollected(w: World, t: string, back: Stage, key: Key, next: Stage)
    requires Collected(w) && InOrder(w, back, key, next)
    ensures var u := OnAddress(w, t, back, key, next); Collected(u.world) && !u.reply.Crashed?
  {
    NavigateCollected(w, t, back);
    Answer(w, key, t, next);
  }

  lemma UsernameCollected(w: World, t: string, back: Stage, key: Key, next: Stage)
    requires Collected(w) && InOrder(w, back, key, next)
    ensures var u := OnUsername(w, t, back, key, next); Collected(u.world) && !u.reply.Crashed?
  {
    NavigateCollected(w, t, back);
    Answer(w, key, t, next);
  }

  lemma Mtu6to4TextCollected(w: World, t: string)
    requires w.stage == Mtu6to4 && Collected(w)
    ensures var u := OnMtu6to4Text(w, t); Collected(u.world) && !u.reply.Crashed?
  {
    NavigateCollected(w, t, Mtu6to4);
    Answer(w, Mtu6to4Key, t, MtuGre);
  }

  lemma IranPasswordCollected(env: Env, w: World, t: string)
    requires w.stage == IranPassword && Collected(w)
    ensures var u := OnIranPassword(env, w, t); Collected(u.world) && !u.reply.Crashed?
  {
  }

  lemma KharejPasswordCollected(env: Env, w: World, t: string)
    requires w.stage == KharejPassword && Collected(w)
    ensures var u := OnKharejPassword(env, w, t); Collected(u.world) && !u.reply.Crashed?
  {
    if t != HomeToken && t != BackToken {
      var d := Set(w.draft, KharejPasswordKey, t);
      assert forall k :: k in ServerKeys(Kharej) ==> k in d.fields;
      assert forall k :: k in ServerKeys(Iran) ==> k in d.fields;
    }
  }

  /** The lookups of `process_config_files` are the answers collected up to the GRE MTU. */
  lemma ConfigKeysNeeded(d: Draft)
    requires Answered(d.fields, 13)
    ensures Missing(d, ConfigKeys).None?
  {
    assert forall k :: k in ConfigKeys ==> k in d.fields;
  }

  lemma AfterConfigCollected(w: World, e: BatchEnd)
    requires w.stage == MtuGre && Collected(w) && MtuGreKey in w.draft.fields
    ensures Collected(AfterConfig(w, e).world)
  {
  }

  lemma ProcessConfigCollected(env: Env, w: World)
    requires w.stage == MtuGre && Collected(w) && MtuGreKey in w.draft.fields
    ensures var u := ProcessConfig(env, w); Collected(u.world) && !u.reply.Crashed?
  {
    ConfigKeysNeeded(w.draft);
    AfterConfigCollected(w, RunPlan(env.oracle, w.log, ConfigPlan(w.draft)));
  }

  /** The lookups of `save_to_db` are the answers collected up to the crontab hour. */
  lemma RecordKeysNeeded(d: Draft)
    requires Answered(d.fields, Rank(CrontabHour)) && d.userId.Some?
    ensures RecordOf(d).Present?
  {
    assert forall k :: k in RecordKeys ==> k in d.fields;
    assert forall k :: k in [IdKey, NameKey] ==> k in d.fields;
  }

  lemma CrontabHourCollected(env: Env, w: World, t: string)
    requires w.stage == CrontabHour && Collected(w)
    ensures var u := OnCrontabHour(env, w, t); Collected(u.world) && !u.reply.Crashed?
  {
    if t != HomeToken && t != BackToken && IsValidCrontabHour(Strip(t)) {
      CrontabHourEnds(env, w, t);
      Extra(w, CrontabHourKey, Strip(t));
    }
  }

  /** A valid hour either stops at a duplicate id with the hour stored, or ends in the main menu. */
  lemma CrontabHourEnds(env: Env, w: World, t: string)
    requires w.stage == CrontabHour && Collected(w) && t != HomeToken && t != BackToken
    requires IsValidCrontabHour(Strip(t))
    ensures var u := OnCrontabHour(env, w, t);
            !u.reply.Crashed?
            && (u.world == w.(draft := Set(w.draft, CrontabHourKey, Strip(t))) || u.world.stage == MainMenu)
  {
    var d := Set(w.draft, CrontabHourKey, Strip(t));
    assert Missing(w.draft, LoginKeys).None? by {
      assert forall k :: k in LoginKeys ==> k in w.draft.fields;
    }
    RecordKeysNeeded(d);
    var record := RecordOf(d).value;
    var u := OnCrontabHour(env, w, t);
    if HasId(w.rows, record.id) {
      assert u == Turn(w.(draft := d), Duplicate);
    } else {
      assert u.world.stage == MainMenu;
    }
  }

  /** The menus need nothing, so any turn that ends in one keeps the invariant. */
  lemma MenusNeedNothing(u: Turn)
    requires u.world.stage in {Idle, MainMenu, SelectTunnel, DeleteTunnel}
    ensures Collected(u.world)
  {
  }

  lemma SelectCollected(env: Env, w: World, t: string)
    ensures var u := OnSelectTunnel(env, w, t); u.world.stage in {Idle, MainMenu} && !u.reply.Crashed?
  {
  }

  lemma DeleteCollected(env: Env, w: World, t: string)
    ensures var u := OnDeleteTunnel(env, w, t); u.world.stage in {Idle, MainMenu} && !u.reply.Crashed?
  {
  }

  lemma MtuGreButtonCollected(env: Env, w: World, data: string)
    requires w.stage == MtuGre && Collected(w)
    ensures var u := OnMtuGreButton(env, w, data); Collected(u.world) && !u.reply.Crashed?
  {
    if data == "mtu_gre_default" {
      ProcessConfigCollected(env, w.(draft := Set(w.draft, MtuGreKey, "1424")));
    }
  }

  lemma MtuGreTextCollected(env: Env, w: World, t: string)
    requires w.stage == MtuGre && Collected(w)
    ensures var u := OnMtuGreText(env, w, t); Collected(u.world) && !u.reply.Crashed?
  {
    if t != HomeToken && t != BackToken && MtuAccepted(t) {
      ProcessConfigCollected(env, w.(draft := Set(w.draft, MtuGreKey, t)));
    }
  }
}
