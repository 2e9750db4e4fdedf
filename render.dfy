/**
 * The files and shell commands `process_config_files`, `kharej_password`, `delete_tunnel`
 * and `process_crontab_hour` send to the servers, written once for either end.
 */
module Render {
  import opened Options
  import opened Text
  import opened Roles
  import opened Validators

  /** A text file of the given lines, each ending with a newline. */
  function FileText(lines: seq<string>): string {
    Join(lines + [""], '\n')
  }

  /** Splitting a rendered file at newlines gives its lines back, then the empty tail. */
  lemma FileLines(lines: seq<string>)
    requires forall i :: 0 <= i < |lines| ==> '\n' !in lines[i]
    ensures Split(FileText(lines), '\n') == lines + [""]
  {
    var all := lines + [""];
    forall i | 0 <= i < |all| ensures '\n' !in all[i] {
      if i < |lines| {
        assert all[i] == lines[i];
      }
    }
    SplitJoin(all, '\n');
  }

  // ---------------------------------------------------------------------------
  // /etc/rc.local

  /** The 6to4 tunnel between the two public addresses, as the source writes it. */
  function SitWordList(side: Side, ownIp: string, peerIp: string): seq<string> {
    ["ip", "tunnel", "add", SitInterface(side), "mode", "sit", "remote", peerIp, "local", ownIp]
  }

  function SitLine(side: Side, ownIp: string, peerIp: string): string {
    Join(SitWordList(side, ownIp, peerIp), ' ')
  }

  /** The GRE tunnel between the two fixed IPv6 addresses. */
  function GreWordList(side: Side): seq<string> {
    ["ip", "-6", "tunnel", "add", GreInterface(side), "mode", "ip6gre", "remote", Ipv6(Peer(side)), "local", Ipv6(side)]
  }

  function GreLine(side: Side): string {
    Join(GreWordList(side), ' ')
  }

  /**
   * The boot script of one end: a 6to4 tunnel from its own public address to the other
   * end's, carrying its fixed IPv6 address, and over it the GRE tunnel between the two
   * fixed IPv6 addresses, carrying its fixed /30 GRE address. `ownIp`, `peerIp` and the two
   * MTUs are the texts typed into the wizard.
   */
  function RcLocalLines(side: Side, ownIp: string, peerIp: string, mtu6to4: string, mtuGre: string): seq<string> {
    var sit := SitInterface(side);
    var gre := GreInterface(side);
    [ "#!/bin/bash",
      SitLine(side, ownIp, peerIp),
      "ip -6 addr add " + Ipv6(side) + "/64 dev " + sit,
      "ip link set " + sit + " mtu " + mtu6to4,
      "ip link set " + sit + " up",
      "",
      "# GRE over IPv6",
      GreLine(side),
      "ip addr add " + GreAddress(side) + "/30 dev " + gre,
      "ip link set " + gre + " mtu " + mtuGre,
      "ip link set " + gre + " up",
      "",
      "exit 0" ]
  }

  function RcLocal(side: Side, ownIp: string, peerIp: string, mtu6to4: string, mtuGre: string): string {
    FileText(RcLocalLines(side, ownIp, peerIp, mtu6to4, mtuGre))
  }

  // ---------------------------------------------------------------------------
  // How the shell reads a line of the boot script: the words are the maximal runs of
  // characters other than the blanks (space and tab) between them.

  predicate IsBlank(c: char) {
    c == ' ' || c == '\t'
  }

  predicate NoBlank(s: string) {
    forall i :: 0 <= i < |s| ==> !IsBlank(s[i])
  }

  /** The line cut at every blank, empty pieces included. */
  function CutAtBlanks(s: string): (parts: seq<string>)
    ensures |parts| >= 1
    decreases |s|
  {
    if s == [] then [""]
    else
      var rest := CutAtBlanks(s[1..]);
      if IsBlank(s[0]) then [""] + rest else [[s[0]] + rest[0]] + rest[1..]
  }

  function NonEmpty(parts: seq<string>): seq<string> {
    if parts == [] then [] else (if parts[0] == "" then [] else [parts[0]]) + NonEmpty(parts[1..])
  }

  /** The words the shell reads from a line. */
  function Fields(s: string): seq<string> {
    NonEmpty(CutAtBlanks(s))
  }

  /** The words of each part in turn. */
  function FieldsOfAll(parts: seq<string>): seq<string> {
    if parts == [] then [] else Fields(parts[0]) + FieldsOfAll(parts[1..])
  }

  lemma {:induction false} CutAppend(a: string, b: string, c: char)
    requires IsBlank(c)
    ensures CutAtBlanks(a + [c] + b) == CutAtBlanks(a) + CutAtBlanks(b)
  {
    var s := a + [c] + b;
    if a == [] {
      assert s[1..] == b;
    } else {
      assert s[1..] == a[1..] + [c] + b;
      CutAppend(a[1..], b, c);
    }
  }

  lemma {:induction false} NonEmptyAppend(x: seq<string>, y: seq<string>)
    ensures NonEmpty(x + y) == NonEmpty(x) + NonEmpty(y)
  {
    if x != [] {
      assert (x + y)[1..] == x[1..] + y;
      NonEmptyAppend(x[1..], y);
    } else {
      assert x + y == y;
    }
  }

  /** A blank between two pieces of a line separates their words. */
  lemma FieldsAtBlank(a: string, b: string, c: char)
    requires IsBlank(c)
    ensures Fields(a + [c] + b) == Fields(a) + Fields(b)
  {
    CutAppend(a, b, c);
    NonEmptyAppend(CutAtBlanks(a), CutAtBlanks(b));
  }

  lemma {:induction false} CutNoBlank(w: string)
    requires NoBlank(w)
    ensures CutAtBlanks(w) == [w]
  {
    if w != [] {
      CutNoBlank(w[1..]);
      assert [w[0]] + w[1..] == w;
    }
  }

  /** A non-empty text without blanks is one word. */
  lemma OneWord(w: string)
    requires w != "" && NoBlank(w)
    ensures Fields(w) == [w]
  {
    CutNoBlank(w);
    assert NonEmpty([w]) == [w] + NonEmpty([w][1..]);
    assert [w][1..] == [];
  }

  /** Blanks alone hold no word. */
  lemma {:induction false} NoWords(s: string)
    requires forall i :: 0 <= i < |s| ==> IsBlank(s[i])
    ensures Fields(s) == []
  {
    if s != [] {
      NoWords(s[1..]);
      assert s == [] + [s[0]] + s[1..];
      FieldsAtBlank([], s[1..], s[0]);
    }
  }

  /** A word with blanks around it, as an address typed with spaces or tabs around it. */
  lemma {:induction false} PaddedWord(lead: string, w: string, trail: string)
    requires forall i :: 0 <= i < |lead| ==> IsBlank(lead[i])
    requires forall i :: 0 <= i < |trail| ==> IsBlank(trail[i])
    requires w != "" && NoBlank(w)
    ensures Fields(lead + w + trail) == [w]
    decreases |lead|
  {
    if lead != [] {
      PaddedWord(lead[1..], w, trail);
      assert lead + w + trail == [] + [lead[0]] + (lead[1..] + w + trail);
      FieldsAtBlank([], lead[1..] + w + trail, lead[0]);
    } else if trail != [] {
      assert lead + w + trail == w + [trail[0]] + trail[1..];
      FieldsAtBlank(w, trail[1..], trail[0]);
      OneWord(w);
      NoWords(trail[1..]);
    } else {
      assert lead + w + trail == w;
      OneWord(w);
    }
  }

  /** The shell reads a line joined with spaces as the words of each part in turn. */
  lemma {:induction false} FieldsJoin(parts: seq<string>)
    requires |parts| >= 1
    ensures Fields(Join(parts, ' ')) == FieldsOfAll(parts)
  {
    if |parts| == 1 {
      assert FieldsOfAll(parts[1..]) == [];
    } else {
      FieldsJoin(parts[1..]);
      FieldsAtBlank(parts[0], Join(parts[1..], ' '), ' ');
    }
  }

  lemma {:induction false} FieldsOfAllAppend(x: seq<string>, y: seq<string>)
    ensures FieldsOfAll(x + y) == FieldsOfAll(x) + FieldsOfAll(y)
  {
    if x != [] {
      assert (x + y)[1..] == x[1..] + y;
      FieldsOfAllAppend(x[1..], y);
    } else {
      assert x + y == y;
    }
  }

  /** Parts that are one word each are read as themselves. */
  lemma {:induction false} FieldsOfWords(parts: seq<string>)
    requires forall i :: 0 <= i < |parts| ==> parts[i] != "" && NoBlank(parts[i])
    ensures FieldsOfAll(parts) == parts
  {
    if parts != [] {
      OneWord(parts[0]);
      FieldsOfWords(parts[1..]);
    }
  }

  /** The fixed words in front of the remote address of the 6to4 line. */
  function SitHead(side: Side): seq<string> {
    ["ip", "tunnel", "add", SitInterface(side), "mode", "sit", "remote"]
  }

  /**
   * The words of the 6to4 line, for any typed addresses: the fixed words with the device,
   * then the words of the remote public address, "local", and the words of the local one.
   */
  lemma SitWords(side: Side, ownIp: string, peerIp: string)
    ensures Fields(SitLine(side, ownIp, peerIp)) == SitHead(side) + Fields(peerIp) + ["local"] + Fields(ownIp)
  {
    assert SitWordList(side, ownIp, peerIp) == SitHead(side) + [peerIp, "local", ownIp];
    SitHeadWords(side);
    OneWord("local");
    HeadThenAddresses(SitHead(side), peerIp, "local", ownIp);
  }

  lemma SitHeadWords(side: Side)
    ensures forall i :: 0 <= i < |SitHead(side)| ==> SitHead(side)[i] != "" && NoBlank(SitHead(side)[i])
  {
    assert NoBlank(SitInterface(side)) by {
      assert SitInterface(side) == "6to4_To_" + Suffix(side);
    }
  }

  /** Fixed words, then a remote address, a keyword and a local address. */
  lemma HeadThenAddresses(head: seq<string>, remote: string, keyword: string, local: string)
    requires forall i :: 0 <= i < |head| ==> head[i] != "" && NoBlank(head[i])
    requires Fields(keyword) == [keyword]
    ensures Fields(Join(head + [remote, keyword, local], ' ')) == head + Fields(remote) + [keyword] + Fields(local)
  {
    var tail := [remote, keyword, local];
    FieldsJoin(head + tail);
    FieldsOfAllAppend(head, tail);
    FieldsOfWords(head);
    FieldsOfThree(remote, keyword, local);
    Regroup(head, Fields(remote), [keyword], Fields(local));
  }

  lemma Regroup(a: seq<string>, b: seq<string>, c: seq<string>, d: seq<string>)
    ensures a + (b + c + d) == a + b + c + d
  {
  }

  lemma FieldsOfThree(a: string, b: string, c: string)
    ensures FieldsOfAll([a, b, c]) == Fields(a) + Fields(b) + Fields(c)
  {
    var t := [a, b, c];
    assert t[1..] == [b, c] && t[1..][1..] == [c] && t[1..][1..][1..] == [];
    assert FieldsOfAll([c]) == Fields(c) + FieldsOfAll([]);
  }

  /** A line of words joined with spaces is read back as those words. */
  lemma JoinedWords(words: seq<string>)
    requires |words| >= 1
    requires forall i :: 0 <= i < |words| ==> words[i] != "" && NoBlank(words[i])
    ensures Fields(Join(words, ' ')) == words
  {
    FieldsJoin(words);
    FieldsOfWords(words);
  }

  /** The words of the GRE line: its device, and the remote and local IPv6 addresses. */
  lemma GreWords(side: Side)
    ensures Fields(GreLine(side)) == GreWordList(side)
  {
    var words := GreWordList(side);
    assert NoBlank(GreInterface(side)) && NoBlank(Ipv6(side)) && NoBlank(Ipv6(Peer(side))) by {
      assert GreInterface(side) == "GRE6Tun_To_" + Suffix(side);
    }
    JoinedWords(words);
  }

  /** The remote word of a tunnel line, and its local word. */
  function Remote(words: seq<string>): string {
    if |words| >= 3 then words[|words| - 3] else ""
  }

  function Local(words: seq<string>): string {
    if |words| >= 1 then words[|words| - 1] else ""
  }

  /**
   * An address typed with blanks around a dotted quad, which the address questions accept,
   * is read by the shell as one word: the quad itself.
   */
  lemma TypedAddressWord(lead: string, quad: string, trail: string)
    requires forall i :: 0 <= i < |lead| ==> IsBlank(lead[i])
    requires forall i :: 0 <= i < |trail| ==> IsBlank(trail[i])
    requires IsDottedQuad(quad)
    ensures Strip(lead + quad + trail) == quad && IsValidIp(Strip(lead + quad + trail))
    ensures Fields(lead + quad + trail) == [quad]
  {
    DottedQuadChars(quad);
    assert NoBlank(quad);
    StripSurrounded(lead, quad, trail);
    IsValidIpIff(quad);
    PaddedWord(lead, quad, trail);
  }

  /**
   * The two boot scripts agree: with Iran rendered from (iranIp, kharejIp) and Kharej from
   * (kharejIp, iranIp), each end's 6to4 and GRE tunnels point at the other end's local
   * address, whenever each typed address is one word to the shell.
   */
  lemma TunnelsMirror(iranIp: string, kharejIp: string)
    requires |Fields(iranIp)| == 1 && |Fields(kharejIp)| == 1
    ensures var iran := Fields(SitLine(Iran, iranIp, kharejIp));
            var kharej := Fields(SitLine(Kharej, kharejIp, iranIp));
            Remote(iran) == Local(kharej) == Fields(kharejIp)[0] && Remote(kharej) == Local(iran) == Fields(iranIp)[0]
    ensures var iran := Fields(GreLine(Iran));
            var kharej := Fields(GreLine(Kharej));
            Remote(iran) == Local(kharej) && Remote(kharej) == Local(iran)
  {
    SitMirror(iranIp, kharejIp);
    GreMirror();
  }

  /**
   * For addresses as the address questions accept them, blanks around a dotted quad, each
   * end's 6to4 remote is the other end's quad and its local address its own quad.
   */
  lemma TypedAddressesMirror(iranLead: string, iranQuad: string, iranTrail: string,
                             kharejLead: string, kharejQuad: string, kharejTrail: string)
    requires forall i :: 0 <= i < |iranLead| ==> IsBlank(iranLead[i])
    requires forall i :: 0 <= i < |iranTrail| ==> IsBlank(iranTrail[i])
    requires forall i :: 0 <= i < |kharejLead| ==> IsBlank(kharejLead[i])
    requires forall i :: 0 <= i < |kharejTrail| ==> IsBlank(kharejTrail[i])
    requires IsDottedQuad(iranQuad) && IsDottedQuad(kharejQuad)
    ensures var iranIp := iranLead + iranQuad + iranTrail;
            var kharejIp := kharejLead + kharejQuad + kharejTrail;
            var iran := Fields(SitLine(Iran, iranIp, kharejIp));
            var kharej := Fields(SitLine(Kharej, kharejIp, iranIp));
            Remote(iran) == Local(kharej) == kharejQuad && Remote(kharej) == Local(iran) == iranQuad
  {
    TypedAddressWord(iranLead, iranQuad, iranTrail);
    TypedAddressWord(kharejLead, kharejQuad, kharejTrail);
    SitMirror(iranLead + iranQuad + iranTrail, kharejLead + kharejQuad + kharejTrail);
  }

  lemma SitMirror(iranIp: string, kharejIp: string)
    requires |Fields(iranIp)| == 1 && |Fields(kharejIp)| == 1
    ensures var iran := Fields(SitLine(Iran, iranIp, kharejIp));
            var kharej := Fields(SitLine(Kharej, kharejIp, iranIp));
            Remote(iran) == Local(kharej) == Fields(kharejIp)[0] && Remote(kharej) == Local(iran) == Fields(iranIp)[0]
  {
    SitWords(Iran, iranIp, kharejIp);
    SitWords(Kharej, kharejIp, iranIp);
    CrossedWords(SitHead(Iran), SitHead(Kharej), Fields(iranIp), Fields(kharejIp));
  }

  /** Two lines that name the same two one-word addresses the other way round. */
  lemma CrossedWords(h1: seq<string>, h2: seq<string>, a: seq<string>, b: seq<string>)
    requires |a| == 1 && |b| == 1
    ensures var x := h1 + b + ["local"] + a;
            var y := h2 + a + ["local"] + b;
            Remote(x) == Local(y) == b[0] && Remote(y) == Local(x) == a[0]
  {
    var x := h1 + b + ["local"] + a;
    var y := h2 + a + ["local"] + b;
    assert x[|x| - 3] == b[0] && x[|x| - 1] == a[0];
    assert y[|y| - 3] == a[0] && y[|y| - 1] == b[0];
  }

  lemma GreMirror()
    ensures var iran := Fields(GreLine(Iran));
            var kharej := Fields(GreLine(Kharej));
            Remote(iran) == Local(kharej) && Remote(kharej) == Local(iran)
  {
    GreEnds(Iran);
    GreEnds(Kharej);
  }

  /** The GRE line's remote word is the peer's IPv6 address, its local word the own one. */
  lemma GreEnds(side: Side)
    ensures Remote(Fields(GreLine(side))) == Ipv6(Peer(side))
    ensures Local(Fields(GreLine(side))) == Ipv6(side)
  {
    GreWords(side);
    var words := GreWordList(side);
    assert |words| == 11 && words[8] == Ipv6(Peer(side)) && words[10] == Ipv6(side);
  }

  // ---------------------------------------------------------------------------
  // /etc/ipsec.conf and /etc/ipsec.secrets

  datatype Setting = Setting(key: string, value: string)

  function SettingLine(s: Setting): string {
    "    " + s.key + "=" + s.value
  }

  /** The `conn gre6tunnel` settings of one end: itself on the left, the other end on the right. */
  function ConnSettings(side: Side): seq<Setting> {
    var peer := Peer(side);
    [ Setting("left", Ipv6(side)),
      Setting("leftid", Identity(side)),
      Setting("leftsubnet", Ipv6(side) + "/128"),
      Setting("right", Ipv6(peer)),
      Setting("rightid", Identity(peer)),
      Setting("rightsubnet", Ipv6(peer) + "/128"),
      Setting("authby", "secret"),
      Setting("auto", "start"),
      Setting("keyexchange", "ikev2"),
      Setting("ike", "aes256-sha2_256-modp2048!"),
      Setting("esp", "aes256-sha2_256!") ]
  }

  function IpsecConfLines(side: Side): seq<string> {
    ["config setup", SettingLine(Setting("charondebug", "\"none\"")), "", "conn gre6tunnel"]
    + seq(11, i requires 0 <= i < 11 => SettingLine(ConnSettings(side)[i]))
  }

  function IpsecConf(side: Side): string {
    FileText(IpsecConfLines(side))
  }

  /** What the settings say about either end: its address, its identity, its subnet. */
  const Aspects: seq<string> := ["", "id", "subnet"]

  /**
   * The two ipsec.conf files describe one connection: what one end says of its left side
   * (address, identity, subnet) the other says of its right side, and the rest is shared.
   */
  lemma ConnMirror(side: Side)
    ensures forall i :: 0 <= i < 3 ==>
              ConnSettings(side)[i].key == "left" + Aspects[i]
              && ConnSettings(Peer(side))[i + 3].key == "right" + Aspects[i]
              && ConnSettings(side)[i].value == ConnSettings(Peer(side))[i + 3].value
    ensures ConnSettings(side)[6..] == ConnSettings(Peer(side))[6..]
  {
  }

  /** The same secrets file goes to both ends: both identities and the pre-shared key. */
  function Secrets(psk: string): string {
    Identity(Iran) + " " + Identity(Kharej) + " : PSK \"" + psk + "\""
  }

  // ---------------------------------------------------------------------------
  // /usr/local/bin/recycle-gre-ipsec.sh

  /** Restart IPsec and bounce both tunnels, the GRE one outermost. */
  function RecycleLines(side: Side): seq<string> {
    var sit := SitInterface(side);
    var gre := GreInterface(side);
    [ "#!/bin/bash",
      "ipsec restart",
      "ip link set " + gre + " down",
      "ip link set " + sit + " down",
      "sleep 1",
      "ip link set " + sit + " up",
      "ip link set " + gre + " up" ]
  }

  function Recycle(side: Side): string {
    FileText(RecycleLines(side))
  }

  // ---------------------------------------------------------------------------
  // Commands.

  const RcLocalPath: string := "/etc/rc.local"
  const IpsecConfPath: string := "/etc/ipsec.conf"
  const IpsecSecretsPath: string := "/etc/ipsec.secrets"
  const RecyclePath: string := "/usr/local/bin/recycle-gre-ipsec.sh"

  /** Writing a file through a single-quoted `echo`. */
  function TeeCommand(content: string, path: string): string {
    "echo '" + content + "' | sudo tee " + path
  }

  /** The text the shell reads as the single-quoted `echo` argument: up to the next quote. */
  function QuotedArgument(command: string): string
    requires |command| >= 6
  {
    Before(command[6..], "'")
  }

  lemma BeforeFirst(c: string, rest: string, t: char)
    requires t !in c
    ensures Before(c + [t] + rest, [t]) == c
  {
    var s := c + [t] + rest;
    assert OccursAt(s, [t], |c|);
    forall j | 0 <= j < |c| ensures !OccursAt(s, [t], j) {
      assert s[j] == c[j];
      assert s[j..j + 1][0] == s[j];
    }
  }

  lemma BeforeCut(c: string, rest: string, t: char)
    requires t in c
    ensures Before(c + rest, [t]) != c
  {
    var s := c + rest;
    var j :| 0 <= j < |c| && c[j] == t;
    assert s[j..j + 1] == [t];
    assert OccursAt(s, [t], j);
    var f := FindFrom(s, [t], 0);
    assert f.Some? && f.value <= j;
    assert |Before(s, [t])| == f.value;
  }

  /**
   * The text the shell hands to `echo` is the rendered file exactly when the file holds no
   * single quote: the first quote inside it ends the shell's argument early.
   */
  lemma TeeArgumentIff(content: string, path: string)
    ensures QuotedArgument(TeeCommand(content, path)) == content <==> '\'' !in content
  {
    var cmd := TeeCommand(content, path);
    assert cmd[6..] == content + "'" + (" | sudo tee " + path);
    if '\'' !in content {
      BeforeFirst(content, " | sudo tee " + path, '\'');
    } else {
      assert cmd[6..] == content + ("'" + " | sudo tee " + path);
      BeforeCut(content, "'" + " | sudo tee " + path, '\'');
    }
  }

  /** The `echo` argument of the secrets command is the rendered secrets file exactly when the key holds no single quote. */
  lemma SecretsIntactIff(psk: string)
    ensures QuotedArgument(TeeCommand(Secrets(psk), IpsecSecretsPath)) == Secrets(psk) <==> '\'' !in psk
  {
    TeeArgumentIff(Secrets(psk), IpsecSecretsPath);
    var pre := Identity(Iran) + " " + Identity(Kharej) + " : PSK \"";
    assert Secrets(psk) == pre + psk + "\"";
    if '\'' in psk {
      var j :| 0 <= j < |psk| && psk[j] == '\'';
      assert Secrets(psk)[|pre| + j] == '\'';
    }
  }

  /** Both ends receive the same secrets file, written by their fifth configuration command. */
  lemma SecretsShared(iranIp: string, kharejIp: string, psk: string, mtu6to4: string, mtuGre: string)
    ensures var iran := ApplyCommands(Iran, iranIp, kharejIp, psk, mtu6to4, mtuGre);
            var kharej := ApplyCommands(Kharej, kharejIp, iranIp, psk, mtu6to4, mtuGre);
            |iran| == |kharej| == 9 && iran[4] == kharej[4] == TeeCommand(Secrets(psk), IpsecSecretsPath)
  {
    WritesSecrets(RcLocal(Iran, iranIp, kharejIp, mtu6to4, mtuGre), IpsecConf(Iran), Secrets(psk), Recycle(Iran));
    WritesSecrets(RcLocal(Kharej, kharejIp, iranIp, mtu6to4, mtuGre), IpsecConf(Kharej), Secrets(psk), Recycle(Kharej));
  }

  lemma WritesSecrets(rcLocal: string, ipsecConf: string, secrets: string, recycle: string)
    ensures var cmds := WriteAndStart(rcLocal, ipsecConf, secrets, recycle);
            |cmds| == 9 && cmds[4] == TeeCommand(secrets, IpsecSecretsPath)
  {
  }

  /** Run on both servers after both logins succeed, before the configuration. */
  const Prerequisites: seq<string> := [
    "apt update && apt upgrade -y",
    "sudo modprobe ip_gre",
    "sudo modprobe ip6gre",
    "lsmod | grep gre",
    "sudo apt update",
    "sudo apt install strongswan strongswan-starter -y"
  ]

  /** The configuration of one end: write and run the boot script, set up IPsec, install recycling. */
  function ApplyCommands(side: Side, ownIp: string, peerIp: string, psk: string, mtu6to4: string, mtuGre: string): seq<string> {
    WriteAndStart(RcLocal(side, ownIp, peerIp, mtu6to4, mtuGre), IpsecConf(side), Secrets(psk), Recycle(side))
  }

  /** The nine configuration commands, given the texts of the four files they write. */
  function WriteAndStart(rcLocal: string, ipsecConf: string, secrets: string, recycle: string): seq<string> {
    [ TeeCommand(rcLocal, RcLocalPath),
      "sudo chmod +x " + RcLocalPath,
      "sudo bash " + RcLocalPath,
      TeeCommand(ipsecConf, IpsecConfPath),
      TeeCommand(secrets, IpsecSecretsPath),
      "sudo systemctl enable strongswan-starter",
      "sudo systemctl start strongswan-starter",
      TeeCommand(recycle, RecyclePath),
      "sudo chmod +x " + RecyclePath ]
  }

  function RemoveCommand(path: string): string {
    "sudo rm -f " + path
  }

  function DeleteTunnelCommand(device: string): string {
    "sudo ip tun del " + device + " || true"
  }

  /** The cleanup of one end when its tunnel is deleted. */
  function CleanupCommands(side: Side): seq<string> {
    [ RemoveCommand(RcLocalPath),
      RemoveCommand(IpsecConfPath),
      RemoveCommand(IpsecSecretsPath),
      RemoveCommand(RecyclePath),
      DeleteTunnelCommand(GreInterface(side)),
      DeleteTunnelCommand(SitInterface(side)),
      "crontab -r || true" ]
  }

  /** The file a command writes through `tee`, when it is one of the configuration writes. */
  function WrittenFile(i: nat): Option<string> {
    if i == 0 then Some(RcLocalPath)
    else if i == 3 then Some(IpsecConfPath)
    else if i == 4 then Some(IpsecSecretsPath)
    else if i == 7 then Some(RecyclePath)
    else None
  }

  /** The command writes some content to the file through `tee`. */
  ghost predicate TeeTo(command: string, path: string) {
    exists content :: command == TeeCommand(content, path)
  }

  /**
   * Deleting undoes configuring: every file a configuration command writes is removed by
   * the cleanup on the same end.
   */
  lemma CleanupRemovesWritten(side: Side, ownIp: string, peerIp: string, psk: string, mtu6to4: string, mtuGre: string)
    ensures var cmds := ApplyCommands(side, ownIp, peerIp, psk, mtu6to4, mtuGre);
            forall i :: 0 <= i < |cmds| && WrittenFile(i).Some? ==>
              TeeTo(cmds[i], WrittenFile(i).value) && RemoveCommand(WrittenFile(i).value) in CleanupCommands(side)
  {
    ApplyWrites(side, ownIp, peerIp, psk, mtu6to4, mtuGre);
    CleanupRemoves(side);
  }

  /** The configuration commands that write files are `tee` commands to those files. */
  lemma ApplyWrites(side: Side, ownIp: string, peerIp: string, psk: string, mtu6to4: string, mtuGre: string)
    ensures var cmds := ApplyCommands(side, ownIp, peerIp, psk, mtu6to4, mtuGre);
            forall i :: 0 <= i < |cmds| && WrittenFile(i).Some? ==> TeeTo(cmds[i], WrittenFile(i).value)
  {
    WritesTee(RcLocal(side, ownIp, peerIp, mtu6to4, mtuGre), IpsecConf(side), Secrets(psk), Recycle(side));
  }

  lemma WritesTee(rcLocal: string, ipsecConf: string, secrets: string, recycle: string)
    ensures var cmds := WriteAndStart(rcLocal, ipsecConf, secrets, recycle);
            forall i :: 0 <= i < |cmds| && WrittenFile(i).Some? ==> TeeTo(cmds[i], WrittenFile(i).value)
  {
    var cmds := WriteAndStart(rcLocal, ipsecConf, secrets, recycle);
    assert cmds[0] == TeeCommand(rcLocal, RcLocalPath);
    assert cmds[3] == TeeCommand(ipsecConf, IpsecConfPath);
    assert cmds[4] == TeeCommand(secrets, IpsecSecretsPath);
    assert cmds[7] == TeeCommand(recycle, RecyclePath);
  }

  /** The cleanup removes each file a configuration command writes. */
  lemma CleanupRemoves(side: Side)
    ensures forall i: nat :: WrittenFile(i).Some? ==> RemoveCommand(WrittenFile(i).value) in CleanupCommands(side)
  {
    var cleanup := CleanupCommands(side);
    assert cleanup[0] == RemoveCommand(RcLocalPath);
    assert cleanup[1] == RemoveCommand(IpsecConfPath);
    assert cleanup[2] == RemoveCommand(IpsecSecretsPath);
    assert cleanup[3] == RemoveCommand(RecyclePath);
  }

  /** The cleanup deletes both tunnel devices the boot script of the same end adds, whatever the typed addresses. */
  lemma CleanupDeletesDevices(side: Side, ownIp: string, peerIp: string)
    ensures var words := Fields(SitLine(side, ownIp, peerIp));
            |words| > 3 && DeleteTunnelCommand(words[3]) in CleanupCommands(side)
    ensures var words := Fields(GreLine(side));
            |words| > 4 && DeleteTunnelCommand(words[4]) in CleanupCommands(side)
  {
    SitDeviceDeleted(side, ownIp, peerIp);
    GreDeviceDeleted(side);
  }

  lemma SitDeviceDeleted(side: Side, ownIp: string, peerIp: string)
    ensures var words := Fields(SitLine(side, ownIp, peerIp));
            |words| > 3 && DeleteTunnelCommand(words[3]) in CleanupCommands(side)
  {
    SitWords(side, ownIp, peerIp);
    assert Fields(SitLine(side, ownIp, peerIp))[3] == SitInterface(side);
    CleanupDeletes(side);
  }

  lemma GreDeviceDeleted(side: Side)
    ensures var words := Fields(GreLine(side));
            |words| > 4 && DeleteTunnelCommand(words[4]) in CleanupCommands(side)
  {
    GreWords(side);
    assert Fields(GreLine(side))[4] == GreInterface(side);
    CleanupDeletes(side);
  }

  lemma CleanupDeletes(side: Side)
    ensures DeleteTunnelCommand(SitInterface(side)) in CleanupCommands(side)
    ensures DeleteTunnelCommand(GreInterface(side)) in CleanupCommands(side)
  {
    assert CleanupCommands(side)[4] == DeleteTunnelCommand(GreInterface(side));
    assert CleanupCommands(side)[5] == DeleteTunnelCommand(SitInterface(side));
  }

  // ---------------------------------------------------------------------------
  // The daily reset.

  function CrontabTime(hour: string): string {
    "0 " + hour + " * * *"
  }

  /** Append the daily recycle job to the existing crontab. */
  function CrontabCommand(hour: string): string {
    "(crontab -l 2>/dev/null; echo '" + CrontabTime(hour) + " " + RecyclePath + " >/dev/null 2>&1') | crontab -"
  }

  predicate Spaceless(s: string) {
    ' ' !in s
  }

  /** A schedule for an hour without spaces has five fields: minute 0, the hour, every day. */
  lemma CrontabFieldsOf(h: string)
    requires Spaceless(h)
    ensures Split(CrontabTime(h), ' ') == ["0", h, "*", "*", "*"]
  {
    var fields := ["0", h, "*", "*", "*"];
    assert Join(fields[3..], ' ') == "* *";
    assert Join(fields[2..], ' ') == "* * *";
    assert Join(fields[1..], ' ') == h + " * * *";
    assert Join(fields, ' ') == CrontabTime(h);
    SplitJoin(fields, ' ');
  }

  /**
   * An hour that passed the validator makes a five-field schedule: minute 0, the hour as
   * typed (stripped), and every day.
   */
  lemma CrontabFields(text: string)
    requires IsValidCrontabHour(Strip(text))
    ensures Split(CrontabTime(Strip(text)), ' ') == ["0", Strip(text), "*", "*", "*"]
  {
    ValidHourHasNoSpace(text);
    assert IsSpace(' ');
    CrontabFieldsOf(Strip(text));
  }

  /**
   * The validator's `int()` takes forms cron does not: an underscore between digits, or
   * Persian digits, end up verbatim in the hour field.
   */
  lemma CrontabTakesUnderscore()
    ensures IsValidCrontabHour("1_2") && CrontabTime("1_2") == "0 1_2 * * *"
  {
    HourAcceptsUnderscore();
  }

  lemma CrontabTakesPersianDigit()
    ensures IsValidCrontabHour("\U{06F5}") && CrontabTime("\U{06F5}") == "0 \U{06F5} * * *"
  {
    HourAcceptsPersianDigit();
  }
}
