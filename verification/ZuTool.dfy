/** The `zu` tool and the text of the dynamic configuration it reads and writes
    (docker/zu/src/main/java/io/pravega/zookeeper/Main.kt). */
module ZuTool {
  import opened Text

  datatype Role = Participant | Observer

  function RoleWord(role: Role): string {
    if role.Participant? then "participant" else "observer"
  }

  /** One member as the ensemble prints it: an id and its details. */
  datatype Server = Server(id: nat, details: string)

  function ServerLine(s: Server): string {
    "server." + Itoa(s.id) + "=" + s.details
  }

  function ServerLines(servers: seq<Server>): (lines: seq<string>)
    ensures |lines| == |servers|
    ensures forall i | 0 <= i < |servers| :: lines[i] == ServerLine(servers[i])
  {
    if servers == [] then [] else [ServerLine(servers[0])] + ServerLines(servers[1..])
  }

  /** The answer to get-all and to a reconfiguration: the members, then the version. */
  function ConfigLines(servers: seq<Server>, version: string): seq<string> {
    ServerLines(servers) + ["version=" + version]
  }

  function Joined(lines: seq<string>): string {
    if lines == [] then ""
    else if |lines| == 1 then lines[0]
    else lines[0] + "\n" + Joined(lines[1..])
  }

  function ConfigText(servers: seq<Server>, version: string): string {
    Joined(ConfigLines(servers, version))
  }

  /** Ids are distinct, and nothing printed breaks a line. */
  ghost predicate Printable(servers: seq<Server>, version: string) {
    && '\n' !in version
    && (forall i | 0 <= i < |servers| :: '\n' !in servers[i].details)
    && (forall i, j | 0 <= i < j < |servers| :: servers[i].id != servers[j].id)
  }

  // ----- get -----

  /** `Crash` is the index error on a line whose key has no dot. */
  datatype Answer = Found(details: string) | NotFound | Crash

  function Find(lines: seq<string>, id: string): Answer {
    if lines == [] then NotFound
    else
      var fields := Split(lines[0], '=');
      if fields[0] == "version" then Find(lines[1..], id)
      else
        var name := Split(fields[0], '.');
        if |name| < 2 then Crash
        else if name[1] != id then Find(lines[1..], id)
        else if |fields| > 1 then Found(fields[1])
        else NotFound
  }

  function RunGet(config: string, id: string): Answer {
    Find(Split(config, '\n'), id)
  }

  lemma {:induction false} SplitJoined(lines: seq<string>)
    requires lines != [] && forall i | 0 <= i < |lines| :: '\n' !in lines[i]
    ensures Split(Joined(lines), '\n') == lines
    decreases |lines|
  {
    if |lines| == 1 {
      SplitWhole(lines[0], '\n');
    } else {
      SplitSeparator(lines[0], '\n', Joined(lines[1..]));
      SplitJoined(lines[1..]);
    }
  }

  lemma DigitsOnly(n: nat, c: char)
    requires !IsDigit(c)
    ensures c !in Itoa(n)
  {
  }

  lemma ServerKey(n: nat)
    ensures Split("server." + Itoa(n), '.') == ["server", Itoa(n)]
    ensures '=' !in "server." + Itoa(n) && '\n' !in "server." + Itoa(n) && "server." + Itoa(n) != "version"
  {
    DigitsOnly(n, '.');
    DigitsOnly(n, '=');
    DigitsOnly(n, '\n');
    assert "server" + ['.'] + Itoa(n) == "server." + Itoa(n);
    SplitSeparator("server", '.', Itoa(n));
    SplitWhole(Itoa(n), '.');
    assert ("server." + Itoa(n))[0] == 's';
  }

  /** The details up to their first equals sign, which is all of them unless they hold one. */
  function FirstField(details: string): (field: string)
    ensures '=' !in details ==> field == details
  {
    details[..IndexOf(details, '=')]
  }

  lemma ServerFields(s: Server)
    ensures var fields := Split(ServerLine(s), '=');
            |fields| > 1 && fields[0] == "server." + Itoa(s.id) && fields[1] == FirstField(s.details)
  {
    ServerKey(s.id);
    SplitSeparator("server." + Itoa(s.id), '=', s.details);
  }

  lemma VersionFields(version: string)
    ensures Split("version=" + version, '=')[0] == "version"
  {
    assert "version" + ['='] + version == "version=" + version;
    SplitSeparator("version", '=', version);
  }

  lemma FindStep(s: Server, rest: seq<string>, n: nat)
    ensures Find([ServerLine(s)] + rest, Itoa(n))
            == if s.id == n then Found(FirstField(s.details)) else Find(rest, Itoa(n))
  {
    ServerFields(s);
    ServerKey(s.id);
    if Itoa(s.id) == Itoa(n) {
      ItoaInjective(s.id, n);
    }
    assert ([ServerLine(s)] + rest)[1..] == rest;
  }

  lemma {:induction false} FindServer(servers: seq<Server>, version: string, n: nat)
    requires forall i, j | 0 <= i < j < |servers| :: servers[i].id != servers[j].id
    ensures var answer := Find(ConfigLines(servers, version), Itoa(n));
            && ((forall i | 0 <= i < |servers| :: servers[i].id != n) ==> answer == NotFound)
            && (forall i | 0 <= i < |servers| && servers[i].id == n :: answer == Found(FirstField(servers[i].details)))
    decreases |servers|
  {
    if servers == [] {
      VersionFields(version);
      assert ConfigLines(servers, version)[1..] == [];
    } else {
      assert ConfigLines(servers, version) == [ServerLine(servers[0])] + ConfigLines(servers[1..], version);
      FindStep(servers[0], ConfigLines(servers[1..], version), n);
      FindServer(servers[1..], version, n);
    }
  }

  lemma LinesArePlain(servers: seq<Server>, version: string)
    requires Printable(servers, version)
    ensures forall i | 0 <= i < |servers| + 1 :: '\n' !in ConfigLines(servers, version)[i]
  {
    forall i | 0 <= i < |servers|
      ensures '\n' !in ConfigLines(servers, version)[i]
    {
      ServerKey(servers[i].id);
    }
  }

  /** `zu get` finds exactly the asked id, never one that merely starts with it, and answers with its
      details up to their first equals sign; an id that is no member is not found. */
  lemma GetFindsExactly(servers: seq<Server>, version: string, n: nat)
    requires Printable(servers, version)
    ensures (forall i | 0 <= i < |servers| :: servers[i].id != n) ==>
              RunGet(ConfigText(servers, version), Itoa(n)) == NotFound
    ensures forall i | 0 <= i < |servers| && servers[i].id == n ::
              RunGet(ConfigText(servers, version), Itoa(n)) == Found(FirstField(servers[i].details))
  {
    LinesArePlain(servers, version);
    SplitJoined(ConfigLines(servers, version));
    FindServer(servers, version, n);
  }

  // ----- The version line -----

  predicate IsVersionLine(line: string) {
    "version=" < line
  }

  function WithoutVersion(lines: seq<string>): seq<string> {
    if lines == [] then []
    else (if IsVersionLine(lines[0]) then [] else [lines[0]]) + WithoutVersion(lines[1..])
  }

  /** What a reconfiguration writes to its output file, as lines. */
  function Written(config: string): seq<string> {
    WithoutVersion(Split(config, '\n'))
  }

  lemma {:induction false} VersionGoes(servers: seq<Server>, version: string)
    requires version != ""
    ensures WithoutVersion(ConfigLines(servers, version)) == ServerLines(servers)
    decreases |servers|
  {
    var lines := ConfigLines(servers, version);
    if servers == [] {
      assert lines == ["version=" + version] && lines[1..] == [];
    } else {
      assert lines[1..] == ConfigLines(servers[1..], version);
      VersionGoes(servers[1..], version);
      assert lines[0][0] == 's';
    }
  }

  /** The file written when a server registers holds the members and nothing else. */
  lemma WritesTheMembers(servers: seq<Server>, version: string)
    requires Printable(servers, version) && version != ""
    ensures Written(ConfigText(servers, version)) == ServerLines(servers)
  {
    LinesArePlain(servers, version);
    SplitJoined(ConfigLines(servers, version));
    VersionGoes(servers, version);
  }

  // ----- sync -----

  predicate IsSpace(c: char) { c in {' ', '\t', '\n', '\r'} }

  function Trim(s: string): string {
    if s == "" then s
    else if IsSpace(s[0]) then Trim(s[1..])
    else if IsSpace(s[|s| - 1]) then Trim(s[..|s| - 1])
    else s
  }

  /** What `zu sync` prints for the data of a znode. */
  function RunSync(data: string): string {
    var k := IndexOf(data, '=');
    Trim(if k == |data| then data else data[k + 1..])
  }

  lemma SyncReadsBack(name: string, i: int)
    requires '=' !in name
    ensures RunSync(name + "=" + Itoa(i)) == Itoa(i)
  {
    IndexOfSeparator(name, '=', Itoa(i));
    var digits := Digits(if i < 0 then -i else i);
    assert IsDigit(digits[0]) && IsDigit(digits[|digits| - 1]);
    assert Itoa(i)[|Itoa(i)| - 1] == digits[|digits| - 1];
    assert (name + "=" + Itoa(i))[|name| + 1..] == Itoa(i);
  }

  // ----- Roles in the text -----

  /** `zkConfig`: what a server registers itself with. */
  function Details(address: string, role: Role, clientPort: int): string {
    address + ":" + RoleWord(role) + ";" + Itoa(clientPort)
  }

  /** `get-role`: anything that does not mention an observer is a participant. */
  function RunGetRole(details: string): Role {
    if Contains(details, "observer") then Observer else Participant
  }

  lemma AbsentLetter(s: string, pat: string)
    requires pat != "" && pat[0] !in s
    ensures !Contains(s, pat)
  {
    forall i | 0 <= i <= |s|
      ensures !OccursAt(s, pat, i)
    {
      if i + |pat| <= |s| {
        assert s[i..i + |pat|][0] == s[i];
      }
    }
  }

  lemma WholeContains(s: string)
    ensures Contains(s, s)
  {
    assert OccursAt(s, s, 0);
  }

  lemma WordsApart()
    ensures !Contains("observer", "participant") && !Contains("participant", "observer")
  {
    AbsentLetter("observer", "participant");
    AbsentLetter("participant", "observer");
  }

  lemma NumberHasNoWord(i: int, word: string)
    requires word != "" && word[0] != '-' && !IsDigit(word[0])
    ensures !Contains(Itoa(i), word)
  {
    assert word[0] !in Digits(if i < 0 then -i else i);
    AbsentLetter(Itoa(i), word);
  }

  /** A word of letters is in the details exactly when it is in the address or is the role. */
  lemma WordInDetails(address: string, role: Role, clientPort: int, word: string)
    requires word != "" && ':' !in word && ';' !in word && word[0] != '-' && !IsDigit(word[0])
    ensures Contains(Details(address, role, clientPort), word) <==>
            Contains(address, word) || Contains(RoleWord(role), word)
  {
    var tail := RoleWord(role) + [';'] + Itoa(clientPort);
    assert Details(address, role, clientPort) == address + [':'] + tail;
    ContainsAcrossSeparator(address, ':', tail, word);
    ContainsAcrossSeparator(RoleWord(role), ';', Itoa(clientPort), word);
    NumberHasNoWord(clientPort, word);
  }

  /** `get-role` is right exactly when the server is an observer or its address does not mention one. */
  lemma GetRoleExactly(address: string, role: Role, clientPort: int)
    ensures RunGetRole(Details(address, role, clientPort)) == role <==> role.Observer? || !Contains(address, "observer")
  {
    WordInDetails(address, role, clientPort, "observer");
    WordsApart();
    WholeContains("observer");
  }
}
