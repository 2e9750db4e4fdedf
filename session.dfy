/**
 * The handlers as the bot runs them: one chat's FSM state and data, updated in place by
 * `State.set()`, `state.update_data` and `state.finish()`, next to the `tunnels` table and
 * the connection to the servers. Every handler method does what the transition function
 * of the wizard says.
 */
module Sessions {
  import opened Options
  import opened Text
  import opened Validators
  import opened Executor
  import opened Remote
  import opened Roles
  import opened Health
  import opened Render
  import opened Store
  import opened Wizard
  import Steps

  class Session {
    const adminId: int
    const allowed: set<int>
    const user: int
    const store: TunnelStore
    const channel: Channel
    var stage: Stage
    var draft: Draft

    /** The configuration and the caller the handlers check access against. */
    function Caller(): Env {
      Env(adminId, allowed, user, channel.oracle)
    }

    /** Everything the handlers keep, as the transition function sees it. */
    function Current(): World
      reads this, store, channel
    {
      World(stage, draft, store.rows, channel.log)
    }

    /** A chat that has not sent anything yet. */
    constructor (adminId: int, allowed: set<int>, user: int, store: TunnelStore, channel: Channel)
      ensures this.adminId == adminId && this.allowed == allowed && this.user == user
      ensures this.store == store && this.channel == channel
      ensures Current() == Fresh(store.rows, channel.log)
    {
      this.adminId := adminId;
      this.allowed := allowed;
      this.user := user;
      this.store := store;
      this.channel := channel;
      stage := Idle;
      draft := EmptyDraft;
    }

    /** `back_to_main_menu`: `state.finish()`, then the main menu. */
    method GoHome()
      modifies this
      ensures Turn(Current(), AtMainMenu) == BackToMain(old(Current()))
    {
      draft := EmptyDraft;
      stage := MainMenu;
    }

    /** The home and back checks at the top of the question handlers. */
    method Navigate(t: string, back: Stage) returns (handled: bool, reply: Reply)
      modifies this
      ensures handled <==> Wizard.Navigate(old(Current()), t, back).Some?
      ensures handled ==> Turn(Current(), reply) == Wizard.Navigate(old(Current()), t, back).value
      ensures !handled ==> Current() == old(Current())
    {
      if t == HomeToken {
        GoHome();
        return true, AtMainMenu;
      }
      if t == BackToken {
        stage := back;
        return true, Prompted;
      }
      return false, Ignored;
    }

    /** `state.update_data(key=value)`, then the next question. */
    method Answer(key: Key, value: string, next: Stage)
      modifies this
      ensures Current() == old(Current()).(stage := next, draft := Set(old(Current()).draft, key, value))
    {
      draft := Set(draft, key, value);
      stage := next;
    }

    /** The two loops of a plan, Iran's first. */
    method RunPlan(p: Plan) returns (failure: Option<string>)
      modifies channel
      ensures BatchEnd(channel.log, failure) == Wizard.RunPlan(channel.oracle, old(channel.log), p)
    {
      failure := channel.RunOnBoth(p.iran, p.kharej, p.iranCmds, p.kharejCmds);
    }

    method OnIdle(t: string) returns (reply: Reply)
      modifies this
      ensures Turn(Current(), reply) == Wizard.OnIdle(Caller(), old(Current()), t)
    {
      if t != StartCommand {
        return Ignored;
      }
      if AccessOf(Caller()).None? {
        return Unauthorized;
      }
      stage := MainMenu;
      return Welcome;
    }

    method OnMainMenu(t: string, freshId: string) returns (reply: Reply)
      modifies this
      ensures Turn(Current(), reply) == Wizard.OnMainMenu(Caller(), old(Current()), t, freshId)
    {
      var access := AccessOf(Caller());
      if access.None? {
        draft := EmptyDraft;
        stage := Idle;
        return Unauthorized;
      }
      if t == NewTunnelToken {
        draft := Draft(draft.fields[IdKey := freshId], Some(user));
        stage := TunnelName;
        return Prompted;
      }
      if t == StatusToken || t == DeleteToken {
        var labels := Labels(store.rows, access.value, user);
        if labels == [] {
          return NoTunnels;
        }
        stage := if t == StatusToken then SelectTunnel else DeleteTunnel;
        return Menu(labels);
      }
      return Rejected;
    }

    method OnSelectTunnel(t: string) returns (reply: Reply)
      modifies this, channel
      ensures Turn(Current(), reply) == Wizard.OnSelectTunnel(Caller(), old(Current()), t)
    {
      var access := AccessOf(Caller());
      if access.None? {
        draft := EmptyDraft;
        stage := Idle;
        return Unauthorized;
      }
      if t == MenuBackToken {
        GoHome();
        return AtMainMenu;
      }
      var name := NameOfLabel(t);
      var found := FindByName(store.rows, name, OwnerFilter(access.value, user));
      if found.None? {
        stage := MainMenu;
        return NotFound;
      }
      var r := found.value;
      var iran := Ping(channel, r.iranServer, GreAddress(Kharej));
      var kharej := Ping(channel, r.kharejServer, GreAddress(Iran));
      stage := MainMenu;
      return Status(name, iran, kharej);
    }

    method OnDeleteTunnel(t: string) returns (reply: Reply)
      modifies this, store, channel
      ensures Turn(Current(), reply) == Wizard.OnDeleteTunnel(Caller(), old(Current()), t)
    {
      var access := AccessOf(Caller());
      if access.None? {
        draft := EmptyDraft;
        stage := Idle;
        return Unauthorized;
      }
      if t == MenuBackToken {
        GoHome();
        return AtMainMenu;
      }
      var found := FindByName(store.rows, NameOfLabel(t), OwnerFilter(access.value, user));
      if found.None? {
        stage := MainMenu;
        return NotFound;
      }
      var r := found.value;
      var failure := RunPlan(CleanupPlan(r));
      stage := MainMenu;
      if failure.Some? {
        return Failed(failure.value);
      }
      store.DeleteById(r.id);
      return Removed;
    }

    method OnTunnelMenu(t: string) returns (reply: Reply)
      modifies this
      ensures Turn(Current(), reply) == Wizard.OnTunnelMenu(old(Current()), t)
    {
      if t == OneToOneToken {
        stage := IranServerIP;
        return Prompted;
      }
      if t == MenuBackToken {
        GoHome();
        return AtMainMenu;
      }
      return Rejected;
    }

    method OnStripped(t: string, back: Stage, key: Key, next: Stage) returns (reply: Reply)
      modifies this
      ensures Turn(Current(), reply) == Wizard.OnStripped(old(Current()), t, back, key, next)
    {
      ghost var w := Current();
      assert Wizard.OnStripped(w, t, back, key, next)
          == if t == HomeToken then BackToMain(w)
             else if t == BackToken then Turn(w.(stage := back), Prompted)
             else if Strip(t) == [] then Turn(w, Rejected)
             else Turn(w.(stage := next, draft := Set(w.draft, key, Strip(t))), Prompted);
      if t == HomeToken {
        GoHome();
        return AtMainMenu;
      }
      if t == BackToken {
        stage := back;
        return Prompted;
      }
      var value := Strip(t);
      if value == [] {
        return Rejected;
      }
      Answer(key, value, next);
      return Prompted;
    }

    method OnAddress(t: string, back: Stage, key: Key, next: Stage) returns (reply: Reply)
      modifies this
      ensures Turn(Current(), reply) == Wizard.OnAddress(old(Current()), t, back, key, next)
    {
      ghost var w := Current();
      assert Wizard.OnAddress(w, t, back, key, next)
          == if t == HomeToken then BackToMain(w)
             else if t == BackToken then Turn(w.(stage := back), Prompted)
             else if !IsValidIp(Strip(t)) then Turn(w, Rejected)
             else Turn(w.(stage := next, draft := Set(w.draft, key, t)), Prompted);
      if t == HomeToken {
        GoHome();
        return AtMainMenu;
      }
      if t == BackToken {
        stage := back;
        return Prompted;
      }
      if !IsValidIp(Strip(t)) {
        return Rejected;
      }
      Answer(key, t, next);
      return Prompted;
    }

    method OnUsername(t: string, back: Stage, key: Key, next: Stage) returns (reply: Reply)
      modifies this
      ensures Turn(Current(), reply) == Wizard.OnUsername(old(Current()), t, back, key, next)
    {
      ghost var w := Current();
      assert Wizard.OnUsername(w, t, back, key, next)
          == if t == HomeToken then BackToMain(w)
             else if t == BackToken then Turn(w.(stage := back), Prompted)
             else Turn(w.(stage := next, draft := Set(w.draft, key, t)), Prompted);
      if t == HomeToken {
        GoHome();
        return AtMainMenu;
      }
      if t == BackToken {
        stage := back;
        return Prompted;
      }
      Answer(key, t, next);
      return Prompted;
    }

    method OnIranPassword(t: string) returns (reply: Reply)
      modifies this, channel
      ensures Turn(Current(), reply) == Wizard.OnIranPassword(Caller(), old(Current()), t)
    {
      var handled, turn := Navigate(t, IranUsername);
      if handled {
        return turn;
      }
      draft := Set(draft, IranPasswordKey, t);
      var missing := Missing(draft, ServerKeys(Iran));
      if missing.Some? {
        return Crashed(missing.value);
      }
      var ok := channel.TestConnection(ServerHost(draft, Iran));
      if !ok {
        GoHome();
        return ConnectFailed;
      }
      stage := KharejServerIP;
      return Prompted;
    }

    method OnKharejPassword(t: string) returns (reply: Reply)
      modifies this, channel
      ensures Turn(Current(), reply) == Wizard.OnKharejPassword(Caller(), old(Current()), t)
    {
      var handled, turn := Navigate(t, KharejUsername);
      if handled {
        return turn;
      }
      draft := Set(draft, KharejPasswordKey, t);
      var missing := Missing(draft, ServerKeys(Kharej));
      if missing.Some? {
        return Crashed(missing.value);
      }
      var ok := channel.TestConnection(ServerHost(draft, Kharej));
      if !ok {
        GoHome();
        return ConnectFailed;
      }
      missing := Missing(draft, ServerKeys(Iran));
      if missing.Some? {
        return Crashed(missing.value);
      }
      var failure := RunPlan(PrerequisitePlan(draft));
      if failure.Some? {
        GoHome();
        return Failed(failure.value);
      }
      stage := IranIP;
      return Prompted;
    }

    method ProcessConfig() returns (reply: Reply)
      modifies this, channel
      ensures Turn(Current(), reply) == Wizard.ProcessConfig(Caller(), old(Current()))
    {
      var missing := Missing(draft, ConfigKeys);
      if missing.Some? {
        return Crashed(missing.value);
      }
      reply := AfterConfig(ConfigPlan(draft));
    }

    /** The end of `process_config_files`: both configuration loops, then the IPv6 addresses. */
    method AfterConfig(p: Plan) returns (reply: Reply)
      modifies this, channel
      ensures Turn(Current(), reply) == Wizard.AfterConfig(old(Current()), Wizard.RunPlan(channel.oracle, old(channel.log), p))
    {
      var failure := RunPlan(p);
      if failure.Some? {
        GoHome();
        return Failed(failure.value);
      }
      draft := Set(Set(draft, IranIpv6Key, Ipv6(Iran)), KharejIpv6Key, Ipv6(Kharej));
      stage := CrontabHour;
      return Configured;
    }

    method OnMtu6to4Button(data: string) returns (reply: Reply)
      modifies this
      ensures Turn(Current(), reply) == Wizard.OnMtu6to4Button(old(Current()), data)
    {
      if data == "back_to_main" {
        GoHome();
        return AtMainMenu;
      } else if data == "back_to_psk" {
        stage := PSK;
        return Prompted;
      } else if data == "mtu_6to4_default" {
        draft := Set(draft, Mtu6to4Key, "1480");
        stage := MtuGre;
        return Prompted;
      } else if data == "mtu_6to4_manual" {
        return Prompted;
      }
      return Ignored;
    }

    method OnMtuGreButton(data: string) returns (reply: Reply)
      modifies this, channel
      ensures Turn(Current(), reply) == Wizard.OnMtuGreButton(Caller(), old(Current()), data)
    {
      if data == "back_to_main" {
        GoHome();
        return AtMainMenu;
      } else if data == "back_to_mtu_6to4" {
        stage := Mtu6to4;
        return Prompted;
      } else if data == "mtu_gre_default" {
        draft := Set(draft, MtuGreKey, "1424");
        reply := ProcessConfig();
        return;
      } else if data == "mtu_gre_manual" {
        return Prompted;
      }
      return Ignored;
    }

    method OnMtu6to4Text(t: string) returns (reply: Reply)
      modifies this
      ensures Turn(Current(), reply) == Wizard.OnMtu6to4Text(old(Current()), t)
    {
      var handled, turn := Navigate(t, Mtu6to4);
      if handled {
        return turn;
      }
      if !MtuAccepted(t) {
        return Rejected;
      }
      draft := Set(draft, Mtu6to4Key, t);
      stage := MtuGre;
      return Prompted;
    }

    method OnMtuGreText(t: string) returns (reply: Reply)
      modifies this, channel
      ensures Turn(Current(), reply) == Wizard.OnMtuGreText(Caller(), old(Current()), t)
    {
      var handled, turn := Navigate(t, MtuGre);
      if handled {
        return turn;
      }
      if !MtuAccepted(t) {
        return Rejected;
      }
      draft := Set(draft, MtuGreKey, t);
      reply := ProcessConfig();
    }

    method OnCrontabHour(t: string) returns (reply: Reply)
      modifies this, store, channel
      ensures Turn(Current(), reply) == Wizard.OnCrontabHour(Caller(), old(Current()), t)
    {
      var handled, turn := Navigate(t, MtuGre);
      if handled {
        return turn;
      }
      var hour := Strip(t);
      if !IsValidCrontabHour(hour) {
        return Rejected;
      }
      var missing := Missing(draft, LoginKeys);
      if missing.Some? {
        return Crashed(missing.value);
      }
      var plan := CrontabPlan(draft, hour);
      draft := Set(draft, CrontabHourKey, hour);
      var record := RecordOf(draft);
      if record.KeyError? {
        return Crashed(record.key);
      }
      var saved := store.Insert(record.value);
      if !saved {
        return Duplicate;
      }
      var failure := RunPlan(plan);
      draft := EmptyDraft;
      stage := MainMenu;
      if failure.Some? {
        return Failed(failure.value);
      }
      return Installed;
    }

    /** The dispatcher: the handler registered for the input's kind in the chat's state. */
    method Handle(input: Input, freshId: string) returns (reply: Reply)
      modifies this, store, channel
      ensures Turn(Current(), reply) == Step(Caller(), old(Current()), input, freshId)
    {
      match input
      case Callback(data) =>
        if stage == Mtu6to4 {
          Steps.StepAtMtu6to4(Caller(), Current(), input, freshId);
          reply := OnMtu6to4Button(data);
        } else if stage == MtuGre {
          Steps.StepAtMtuGre(Caller(), Current(), input, freshId);
          reply := OnMtuGreButton(data);
        } else {
          reply := Ignored;
        }
      case Text(t) =>
        match stage
        case Idle =>
          Steps.StepAtIdle(Caller(), Current(), input, freshId);
          reply := OnIdle(t);
        case MainMenu =>
          Steps.StepAtMainMenu(Caller(), Current(), input, freshId);
          reply := OnMainMenu(t, freshId);
        case SelectTunnel =>
          Steps.StepAtSelectTunnel(Caller(), Current(), input, freshId);
          reply := OnSelectTunnel(t);
        case DeleteTunnel =>
          Steps.StepAtDeleteTunnel(Caller(), Current(), input, freshId);
          reply := OnDeleteTunnel(t);
        case TunnelName =>
          Steps.StepAtTunnelName(Caller(), Current(), input, freshId);
          reply := OnStripped(t, MainMenu, NameKey, TunnelMenu);
        case TunnelMenu =>
          Steps.StepAtTunnelMenu(Caller(), Current(), input, freshId);
          reply := OnTunnelMenu(t);
        case IranServerIP =>
          Steps.StepAtIranServerIP(Caller(), Current(), input, freshId);
          reply := OnAddress(t, TunnelName, IranServerKey, IranUsername);
        case IranUsername =>
          Steps.StepAtIranUsername(Caller(), Current(), input, freshId);
          reply := OnUsername(t, IranServerIP, IranUserKey, IranPassword);
        case IranPassword =>
          Steps.StepAtIranPassword(Caller(), Current(), input, freshId);
          reply := OnIranPassword(t);
        case KharejServerIP =>
          Steps.StepAtKharejServerIP(Caller(), Current(), input, freshId);
          reply := OnAddress(t, IranPassword, KharejServerKey, KharejUsername);
        case KharejUsername =>
          Steps.StepAtKharejUsername(Caller(), Current(), input, freshId);
          reply := OnUsername(t, KharejServerIP, KharejUserKey, KharejPassword);
        case KharejPassword =>
          Steps.StepAtKharejPassword(Caller(), Current(), input, freshId);
          reply := OnKharejPassword(t);
        case IranIP =>
          Steps.StepAtIranIP(Caller(), Current(), input, freshId);
          reply := OnAddress(t, KharejPassword, IranIpKey, KharejIP);
        case KharejIP =>
          Steps.StepAtKharejIP(Caller(), Current(), input, freshId);
          reply := OnAddress(t, IranIP, KharejIpKey, PSK);
        case PSK =>
          Steps.StepAtPSK(Caller(), Current(), input, freshId);
          reply := OnStripped(t, KharejIP, PskKey, Mtu6to4);
        case Mtu6to4 =>
          Steps.StepAtMtu6to4(Caller(), Current(), input, freshId);
          reply := OnMtu6to4Text(t);
        case MtuGre =>
          Steps.StepAtMtuGre(Caller(), Current(), input, freshId);
          reply := OnMtuGreText(t);
        case CrontabHour =>
          Steps.StepAtCrontabHour(Caller(), Current(), input, freshId);
          reply := OnCrontabHour(t);
    }
  }
}
