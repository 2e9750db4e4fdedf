/**
 * What the handlers that talk to the servers or write the table leave behind: the login
 * tests, the two fail-fast command runs, the save and the delete.
 */
module Outcomes {
  import opened Options
  import opened Text
  import opened Validators
  import opened Executor
  import opened Remote
  import opened Roles
  import opened Render
  import opened Store
  import opened Wizard

  /**
   * `process_iran_password`: the login is tested once; the wizard goes on to the Kharej
   * server exactly when the test did not raise, and otherwise the data is dropped.
   */
  lemma IranPasswordOutcome(env: Env, w: World, t: string)
    requires w.stage == IranPassword && Collected(w) && t != HomeToken && t != BackToken
    ensures var u := OnIranPassword(env, w, t);
            var d := Set(w.draft, IranPasswordKey, t);
            var host := Host(w.draft.fields[IranServerKey], w.draft.fields[IranUserKey], t);
            u.world.log == w.log + [Connect(host)] && u.world.rows == w.rows
            && (u.world.stage == KharejServerIP <==> !env.oracle(w.log, Connect(host)).Raised?)
            && (u.world.stage == KharejServerIP ==> u.world.draft == d && u.reply == Prompted)
            && (u.world.stage != KharejServerIP ==> u.world.stage == MainMenu && u.world.draft == EmptyDraft
                                                    && u.reply == ConnectFailed)
  {
    var d := Set(w.draft, IranPasswordKey, t);
    assert forall k :: k in ServerKeys(Iran) ==> k in d.fields;
  }

  /**
   * `process_kharej_password`: after a login test that does not raise, the prerequisites
   * run on the Iran server and then on the Kharej server; the wizard goes on to the
   * tunnel addresses exactly when every one of them succeeded.
   */
  lemma KharejPasswordOutcome(env: Env, w: World, t: string)
    requires w.stage == KharejPassword && Collected(w) && t != HomeToken && t != BackToken
    ensures var u := OnKharejPassword(env, w, t);
            var d := Set(w.draft, KharejPasswordKey, t);
            var kharej := Host(w.draft.fields[KharejServerKey], w.draft.fields[KharejUserKey], t);
            var iran := Host(w.draft.fields[IranServerKey], w.draft.fields[IranUserKey], w.draft.fields[IranPasswordKey]);
            var log := w.log + [Connect(kharej)];
            var p := Plan(iran, kharej, Prerequisites, Prerequisites);
            u.world.rows == w.rows
            && (env.oracle(w.log, Connect(kharej)).Raised? ==>
                  u == Turn(w.(stage := MainMenu, draft := EmptyDraft, log := log), ConnectFailed))
            && (!env.oracle(w.log, Connect(kharej)).Raised? ==>
                  PlanOrdered(env.oracle, log, p, u.world.log)
                  && (u.world.stage == IranIP <==> PlanSucceeds(env.oracle, log, p))
                  && (u.world.stage == IranIP ==> u.world.draft == d && u.reply == Prompted)
                  && (u.world.stage != IranIP ==> u.world.stage == MainMenu && u.world.draft == EmptyDraft
                                                  && u.reply.Failed?))
  {
    var d := Set(w.draft, KharejPasswordKey, t);
    assert forall k :: k in ServerKeys(Kharej) ==> k in d.fields;
    assert forall k :: k in ServerKeys(Iran) ==> k in d.fields;
    var kharej := ServerHost(d, Kharej);
    var log := w.log + [Connect(kharej)];
    PlanFailsFast(env.oracle, log, PrerequisitePlan(d));
  }

  /**
   * `process_config_files`: the Iran end is configured towards the Kharej end and the
   * other way round; the wizard asks for the crontab hour exactly when every command on
   * both servers succeeded, and only then are the IPv6 addresses stored.
   */
  lemma ConfigOutcome(env: Env, w: World)
    requires Missing(w.draft, ConfigKeys).None?
    ensures var u := ProcessConfig(env, w);
            var f := w.draft.fields;
            var p := ConfigPlan(w.draft);
            p.iranCmds == ApplyCommands(Iran, f[IranIpKey], f[KharejIpKey], f[PskKey], f[Mtu6to4Key], f[MtuGreKey])
            && p.kharejCmds == ApplyCommands(Kharej, f[KharejIpKey], f[IranIpKey], f[PskKey], f[Mtu6to4Key], f[MtuGreKey])
            && u.world.rows == w.rows && PlanOrdered(env.oracle, w.log, p, u.world.log)
            && (u.reply == Configured <==> PlanSucceeds(env.oracle, w.log, p))
            && (u.reply == Configured ==>
                  u.world.stage == CrontabHour
                  && u.world.draft.fields == f[IranIpv6Key := Ipv6(Iran)][KharejIpv6Key := Ipv6(Kharej)])
            && (u.reply != Configured ==>
                  u.world.stage == MainMenu && u.world.draft == EmptyDraft && u.reply.Failed?)
  {
    PlanFailsFast(env.oracle, w.log, ConfigPlan(w.draft));
  }

  /** The record `save_to_db` builds from the data once the hour is stored: every value as collected. */
  lemma CrontabRecord(w: World, h: string)
    requires w.stage == CrontabHour && Collected(w)
    ensures var d := Set(w.draft, CrontabHourKey, h);
            RecordOf(d).Present?
            && var record := RecordOf(d).value;
            record.id == w.draft.fields[IdKey] && record.name == w.draft.fields[NameKey]
            && record.owner == w.draft.userId.value && record.crontabHour == h
            && record.iranIp == w.draft.fields[IranIpKey] && record.kharejIp == w.draft.fields[KharejIpKey]
            && record.psk == w.draft.fields[PskKey] && record.mtuGre == w.draft.fields[MtuGreKey]
  {
    RecordKeysNeeded(Set(w.draft, CrontabHourKey, h));
  }

  /**
   * `process_crontab_hour`: a valid hour saves the tunnel first, unless its id is already
   * taken; the crontab line is then added on both servers and the chat returns to the main
   * menu whether or not that succeeded.
   */
  lemma CrontabOutcome(env: Env, w: World, t: string)
    requires w.stage == CrontabHour && Collected(w) && t != HomeToken && t != BackToken
    requires IsValidCrontabHour(Strip(t))
    ensures var u := OnCrontabHour(env, w, t);
            var d := Set(w.draft, CrontabHourKey, Strip(t));
            Missing(w.draft, LoginKeys).None? && RecordOf(d).Present?
            && (HasId(w.rows, RecordOf(d).value.id) ==> u == Turn(w.(draft := d), Duplicate))
            && (!HasId(w.rows, RecordOf(d).value.id) ==>
                  var p := CrontabPlan(w.draft, Strip(t));
                  p.iranCmds == p.kharejCmds == [CrontabCommand(Strip(t))]
                  && u.world.stage == MainMenu && u.world.draft == EmptyDraft
                  && u.world.rows == w.rows + [RecordOf(d).value]
                  && PlanOrdered(env.oracle, w.log, p, u.world.log)
                  && (u.reply == Installed <==> PlanSucceeds(env.oracle, w.log, p)))
  {
    assert forall k :: k in LoginKeys ==> k in w.draft.fields;
    CrontabRecord(w, Strip(t));
    PlanFailsFast(env.oracle, w.log, CrontabPlan(w.draft, Strip(t)));
  }

  /**
   * `delete_tunnel`: the row goes only after the cleanup succeeded on both servers; a
   * failure on the Iran server leaves the Kharej server untouched.
   */
  lemma DeleteOutcome(env: Env, w: World, t: string, r: Tunnel)
    requires AccessOf(env).Some? && t != MenuBackToken
    requires FindByName(w.rows, NameOfLabel(t), OwnerFilter(AccessOf(env).value, env.user)) == Some(r)
    ensures var u := OnDeleteTunnel(env, w, t);
            var p := CleanupPlan(r);
            u.world.stage == MainMenu && u.world.draft == w.draft
            && PlanOrdered(env.oracle, w.log, p, u.world.log)
            && (u.reply == Removed <==> PlanSucceeds(env.oracle, w.log, p))
            && u.world.rows == if u.reply == Removed then WithoutId(w.rows, r.id) else w.rows
  {
    PlanFailsFast(env.oracle, w.log, CleanupPlan(r));
  }

  /** A user's delete never removes another user's tunnel. */
  lemma UserDeletesOnlyOwn(env: Env, w: World, t: string, x: Tunnel)
    requires AccessOf(env) == Some(User) && DistinctIds(w.rows)
    requires x in w.rows && x.owner != env.user
    ensures x in OnDeleteTunnel(env, w, t).world.rows
  {
    if t != MenuBackToken {
      match FindByName(w.rows, NameOfLabel(t), Some(env.user))
      case None =>
      case Some(r) =>
        assert x.id != r.id by {
          var i :| 0 <= i < |w.rows| && w.rows[i] == x;
          var j :| 0 <= j < |w.rows| && w.rows[j] == r;
          assert i != j;
        }
    }
  }

  /** An address is stored as it was typed, surrounding whitespace and all, once its stripped form passes. */
  lemma AddressStoredRaw(w: World)
    requires w.stage == IranIP
    ensures var u := OnAddress(w, " 192.168.1.1 ", KharejPassword, IranIpKey, KharejIP);
            u.world.stage == KharejIP && u.world.draft.fields[IranIpKey] == " 192.168.1.1 "
  {
    var t := " 192.168.1.1 ";
    StripSurrounded(" ", "192.168.1.1", " ");
    assert " " + "192.168.1.1" + " " == t;
    AcceptsPlainAddress();
  }
}
