/**
 * The `tunnels` table: one record per installed tunnel, keyed by its id, and the queries
 * the menu, status and delete handlers run against it. Rows are kept in insertion order,
 * the order a full scan of the table visits them.
 */
module Store {
  import opened Options
  import opened Text
  import opened Executor
  import opened Validators

  /** One record, as `save_to_db` writes it: every field is the text the wizard collected. */
  datatype Tunnel = Tunnel(
    id: string, name: string, owner: int,
    iranServer: Host, kharejServer: Host,
    iranIp: string, kharejIp: string, iranIpv6: string, kharejIpv6: string,
    psk: string, mtu6to4: string, mtuGre: string, crontabHour: string)

  /** `tunnel_id` is the primary key. */
  predicate DistinctIds(rows: seq<Tunnel>) {
    forall i, j :: 0 <= i < j < |rows| ==> rows[i].id != rows[j].id
  }

  predicate HasId(rows: seq<Tunnel>, id: string) {
    exists i :: 0 <= i < |rows| && rows[i].id == id
  }

  /** The rows a caller may see: all of them for the admin, only their own for a user. */
  function Visible(rows: seq<Tunnel>, access: Access, user: int): (r: seq<Tunnel>)
    ensures forall t :: t in r <==> t in rows && (access == Admin || t.owner == user)
  {
    if rows == [] then []
    else
      var rest := Visible(rows[1..], access, user);
      if access == Admin || rows[0].owner == user then [rows[0]] + rest else rest
  }

  /** Separates a tunnel's name from its owner on the admin's buttons. */
  const LabelSep: string := " (کاربر:"

  /** The button text for a tunnel: the admin also sees the owner's id. */
  function Label(t: Tunnel, access: Access): string {
    if access == Admin then t.name + LabelSep + " " + IntToString(t.owner) + ")" else t.name
  }

  /** `text.split(" (کاربر:")[0]`: the tunnel name a button text stands for. */
  function NameOfLabel(text: string): string {
    Before(text, LabelSep)
  }

  /** The buttons of the status and delete menus, newest first. */
  function Labels(rows: seq<Tunnel>, access: Access, user: int): (r: seq<string>)
    ensures |r| == |Visible(rows, access, user)|
  {
    var vs := Visible(rows, access, user);
    seq(|vs|, i requires 0 <= i < |vs| => Label(vs[|vs| - 1 - i], access))
  }

  predicate Matches(t: Tunnel, name: string, owner: Option<int>) {
    t.name == name && (owner.None? || t.owner == owner.value)
  }

  /**
   * `SELECT ... WHERE tunnel_name = ? [AND user_id = ?]` followed by `fetchone()`: the first
   * row in table order with that name (and that owner, for a user).
   */
  function FindByName(rows: seq<Tunnel>, name: string, owner: Option<int>): (r: Option<Tunnel>)
    ensures r.Some? ==> r.value in rows && Matches(r.value, name, owner)
    ensures r.None? <==> forall i :: 0 <= i < |rows| ==> !Matches(rows[i], name, owner)
  {
    if rows == [] then None
    else if Matches(rows[0], name, owner) then Some(rows[0])
    else FindByName(rows[1..], name, owner)
  }

  /** The owner filter of a lookup: none for the admin, the caller for a user. */
  function OwnerFilter(access: Access, user: int): Option<int> {
    if access == Admin then None else Some(user)
  }

  /** `DELETE FROM tunnels WHERE tunnel_id = ?`. */
  function WithoutId(rows: seq<Tunnel>, id: string): (r: seq<Tunnel>)
    ensures forall t :: t in r <==> t in rows && t.id != id
    ensures |r| <= |rows|
  {
    if rows == [] then []
    else if rows[0].id == id then WithoutId(rows[1..], id)
    else [rows[0]] + WithoutId(rows[1..], id)
  }

  // ---------------------------------------------------------------------------
  // Properties.

  /** The first match is the earliest matching row. */
  lemma {:induction false} FindByNameFirst(rows: seq<Tunnel>, name: string, owner: Option<int>, k: nat)
    requires k < |rows| && Matches(rows[k], name, owner)
    requires forall i :: 0 <= i < k ==> !Matches(rows[i], name, owner)
    ensures FindByName(rows, name, owner) == Some(rows[k])
  {
    if k > 0 {
      FindByNameFirst(rows[1..], name, owner, k - 1);
    }
  }

  /** A lookup with the owner filter only finds rows the caller may see. */
  lemma FoundIsVisible(rows: seq<Tunnel>, name: string, access: Access, user: int)
    requires FindByName(rows, name, OwnerFilter(access, user)).Some?
    ensures FindByName(rows, name, OwnerFilter(access, user)).value in Visible(rows, access, user)
  {
  }

  /** The admin's menu lists the whole table, in table order. */
  lemma {:induction false} AdminSeesTable(rows: seq<Tunnel>, user: int)
    ensures Visible(rows, Admin, user) == rows
  {
    if rows != [] {
      AdminSeesTable(rows[1..], user);
      assert rows == [rows[0]] + rows[1..];
    }
  }

  /**
   * The visible rows keep the table's order: a row added at the end of the table comes
   * last among the visible rows when the caller may see it, and changes nothing otherwise.
   */
  lemma {:induction false} VisibleAppend(rows: seq<Tunnel>, t: Tunnel, access: Access, user: int)
    ensures Visible(rows + [t], access, user)
            == Visible(rows, access, user) + (if access == Admin || t.owner == user then [t] else [])
  {
    if rows == [] {
      assert [] + [t] == [t];
      assert Visible([t][1..], access, user) == [];
    } else {
      assert (rows + [t])[1..] == rows[1..] + [t];
      VisibleAppend(rows[1..], t, access, user);
    }
  }

  /** A row whose id is distinct from the rest keeps the primary key intact. */
  lemma InsertKeepsDistinct(rows: seq<Tunnel>, t: Tunnel)
    requires DistinctIds(rows) && !HasId(rows, t.id)
    ensures DistinctIds(rows + [t])
  {
  }

  lemma {:induction false} WithoutIdKeepsDistinct(rows: seq<Tunnel>, id: string)
    requires DistinctIds(rows)
    ensures DistinctIds(WithoutId(rows, id))
  {
    if rows != [] {
      WithoutIdKeepsDistinct(rows[1..], id);
      var rest := WithoutId(rows[1..], id);
      if rows[0].id != id {
        forall j | 0 <= j < |rest| ensures rest[j].id != rows[0].id {
          assert rest[j] in rows[1..];
        }
      }
    }
  }

  /** Deleting by id removes exactly one row when that id is present, and none otherwise. */
  lemma {:induction false} WithoutIdCount(rows: seq<Tunnel>, id: string)
    requires DistinctIds(rows)
    ensures |WithoutId(rows, id)| == if HasId(rows, id) then |rows| - 1 else |rows|
  {
    if rows != [] {
      WithoutIdCount(rows[1..], id);
      if rows[0].id == id {
        assert !HasId(rows[1..], id) by {
          forall i | 0 <= i < |rows[1..]| ensures rows[1..][i].id != id {
            assert rows[1..][i] == rows[i + 1];
          }
        }
      } else {
        assert HasId(rows, id) <==> HasId(rows[1..], id) by {
          if HasId(rows, id) {
            var i :| 0 <= i < |rows| && rows[i].id == id;
            assert rows[1..][i - 1] == rows[i];
          }
          if HasId(rows[1..], id) {
            var i :| 0 <= i < |rows[1..]| && rows[1..][i].id == id;
            assert rows[i + 1] == rows[1..][i];
          }
        }
      }
    }
  }

  /** No proper prefix of the separator is also a suffix of it: its space occurs only first. */
  lemma SeparatorUnbordered(k: nat)
    requires 0 < k < |LabelSep|
    ensures LabelSep[k] != ' '
  {
    var tail := "(کاربر:";
    assert LabelSep == " " + tail;
    assert LabelSep[k] == tail[k - 1];
  }

  /** In name + separator + rest, the separator first occurs right after a name that lacks it. */
  lemma FirstSeparator(name: string, rest: string)
    requires !Contains(name, LabelSep)
    ensures FindFrom(name + LabelSep + rest, LabelSep, 0) == Some(|name|)
  {
    var s := name + LabelSep + rest;
    assert s[|name|..|name| + |LabelSep|] == LabelSep;
    forall i | 0 <= i < |name| ensures !OccursAt(s, LabelSep, i) {
      if OccursAt(s, LabelSep, i) {
        if i + |LabelSep| <= |name| {
          assert name[i..i + |LabelSep|] == s[i..i + |LabelSep|];
          assert OccursAt(name, LabelSep, i);
        } else {
          var k := |name| - i;
          assert s[|name|] == ' ';
          assert s[i..i + |LabelSep|][k] == s[|name|];
          SeparatorUnbordered(k);
        }
      }
    }
    assert OccursAt(s, LabelSep, |name|);
    var f := FindFrom(s, LabelSep, 0);
    assert f.Some? && f.value <= |name|;
  }

  /** A separator inside the name is found before the name ends. */
  lemma EarlySeparator(name: string, rest: string)
    requires Contains(name, LabelSep)
    ensures |Before(name + rest, LabelSep)| < |name|
  {
    var s := name + rest;
    var i :| 0 <= i <= |name| && OccursAt(name, LabelSep, i);
    assert s[i..i + |LabelSep|] == name[i..i + |LabelSep|];
    assert OccursAt(s, LabelSep, i);
    var f := FindFrom(s, LabelSep, 0);
    assert f.Some? && f.value <= i;
  }

  /**
   * A button text leads back to the tunnel's name exactly when the name does not itself
   * hold the separator.
   */
  lemma LabelRoundTrip(t: Tunnel, access: Access)
    ensures NameOfLabel(Label(t, access)) == t.name <==> !Contains(t.name, LabelSep)
  {
    if access == Admin {
      var owner := " " + IntToString(t.owner) + ")";
      assert Label(t, access) == t.name + LabelSep + owner;
      SeparatedName(t.name, owner);
    }
  }

  /**
   * Button i of the menu is the label of the i-th newest visible row. Pressing it looks up,
   * with the caller's owner filter, a visible row of that name, unless the name itself
   * holds the separator.
   */
  lemma LabelOpens(rows: seq<Tunnel>, access: Access, user: int, i: nat)
    requires i < |Labels(rows, access, user)|
    ensures var vs := Visible(rows, access, user);
            Labels(rows, access, user)[i] == Label(vs[|vs| - 1 - i], access)
    ensures var vs := Visible(rows, access, user);
            var t := vs[|vs| - 1 - i];
            var found := FindByName(rows, NameOfLabel(Labels(rows, access, user)[i]), OwnerFilter(access, user));
            !Contains(t.name, LabelSep) ==> found.Some? && found.value in vs && found.value.name == t.name
  {
    var vs := Visible(rows, access, user);
    var t := vs[|vs| - 1 - i];
    if !Contains(t.name, LabelSep) {
      LabelRoundTrip(t, access);
      assert t in vs;
      var j :| 0 <= j < |rows| && rows[j] == t;
      assert Matches(rows[j], t.name, OwnerFilter(access, user));
      FoundIsVisible(rows, t.name, access, user);
    }
  }

  /** The text before the first separator of `name + LabelSep + rest` is `name` exactly when `name` holds none. */
  lemma SeparatedName(name: string, rest: string)
    ensures NameOfLabel(name + LabelSep + rest) == name <==> !Contains(name, LabelSep)
  {
    if Contains(name, LabelSep) {
      EarlySeparator(name, LabelSep + rest);
      assert name + (LabelSep + rest) == name + LabelSep + rest;
    } else {
      FirstSeparator(name, rest);
    }
  }

  /**
   * The admin's buttons do not tell two same-named tunnels apart: the owner on the button
   * is dropped, so the second tunnel's button selects the first tunnel.
   */
  lemma AdminLabelSelectsFirst(a: Tunnel, b: Tunnel)
    requires a.name == b.name && a != b && !Contains(b.name, LabelSep)
    ensures FindByName([a, b], NameOfLabel(Label(b, Admin)), OwnerFilter(Admin, 0)) == Some(a)
  {
    LabelRoundTrip(b, Admin);
  }

  // ---------------------------------------------------------------------------
  // The table itself.

  /** The `tunnels` table, updated in place by the save and delete handlers. */
  class TunnelStore {
    var rows: seq<Tunnel>

    constructor (rows: seq<Tunnel>)
      ensures this.rows == rows
    {
      this.rows := rows;
    }

    /**
     * `save_to_db`: the INSERT either adds the record at the end or, when the id is taken,
     * fails with an integrity error and leaves the table as it was.
     */
    method Insert(t: Tunnel) returns (ok: bool)
      modifies this
      ensures ok == !HasId(old(rows), t.id)
      ensures rows == if ok then old(rows) + [t] else old(rows)
    {
      ok := forall i :: 0 <= i < |rows| ==> rows[i].id != t.id;
      if ok {
        rows := rows + [t];
      }
    }

    /** The DELETE of `delete_tunnel`. */
    method DeleteById(id: string)
      modifies this
      ensures rows == WithoutId(old(rows), id)
    {
      rows := WithoutId(rows, id);
    }
  }
}
