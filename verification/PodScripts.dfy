/** The scripts every ZooKeeper pod runs: zookeeperStart.sh, zookeeperReady.sh and zookeeperTeardown.sh
    in docker/bin. They act on the pod's volume and, through the `zu` tool, on the ensemble, which is
    a map from server ids to roles that each reconfiguration edits at once.

    A pod may be killed between any two of its edits. A file is written in two of them: the redirection
    empties it, then the text arrives. */
module PodScripts {
  import opened Options
  import opened Text
  import opened Calls
  import opened ZuTool

  /** The server id of a pod, one more than the ordinal its host name ends in. */
  function ServerId(host: string): Option<nat> {
    var k := LastIndexOf(host, '-');
    if k == -1 || k == |host| - 1 || !AllDigits(host[k + 1..]) then None else Some(Value(host[k + 1..]) + 1)
  }

  // ----- The volume and the ensemble -----

  /** The directory the static configuration is copied to. */
  datatype ConfDir = Missing | Empty | Holding(lines: seq<string>)

  /** Text files are sequences of lines. */
  datatype Disk = Disk(myid: Option<string>, dynamic: Option<seq<string>>, dir: ConfDir)

  const BLANK := Disk(None, None, Missing)

  type Members = map<int, Role>

  datatype Site = Site(disk: Disk, members: Members)

  datatype Effect =
    | ClearMyid | FillMyid(text: string) | ClearDynamic | FillDynamic(lines: seq<string>)
    | Join(id: int) | MakeDir | ClearStatic | FillStatic(lines: seq<string>)

  function Apply(s: Site, f: Effect): Site {
    match f
    case ClearMyid => s.(disk := s.disk.(myid := Some("")))
    case FillMyid(text) => s.(disk := s.disk.(myid := Some(text)))
    case ClearDynamic => s.(disk := s.disk.(dynamic := Some([])))
    case FillDynamic(lines) => s.(disk := s.disk.(dynamic := Some(lines)))
    case Join(id) => s.(members := s.members[id := Observer])
    case MakeDir => s.(disk := s.disk.(dir := Empty))
    case ClearStatic => s.(disk := s.disk.(dir := Holding([])))
    case FillStatic(lines) => s.(disk := s.disk.(dir := Holding(lines)))
  }

  /** The first `steps` of the edits, which is what a script that is killed then has done. */
  function Play(s: Site, fs: seq<Effect>, steps: nat): Site
    decreases |fs|
  {
    if fs == [] || steps == 0 then s else Play(Apply(s, fs[0]), fs[1..], steps - 1)
  }

  function Left(steps: nat, fs: seq<Effect>): nat {
    if steps < |fs| then 0 else steps - |fs|
  }

  lemma {:induction false} PlayConcat(s: Site, fs: seq<Effect>, gs: seq<Effect>, steps: nat)
    ensures Play(s, fs + gs, steps) == Play(Play(s, fs, steps), gs, Left(steps, fs))
    decreases |fs|
  {
    if fs == [] {
      assert fs + gs == gs;
    } else if steps > 0 {
      assert (fs + gs)[1..] == fs[1..] + gs;
      PlayConcat(Apply(s, fs[0]), fs[1..], gs, steps - 1);
    }
  }

  lemma PlayTwo(s: Site, f: Effect, g: Effect, steps: nat)
    ensures Play(s, [f, g], steps)
            == if steps == 0 then s else if steps == 1 then Apply(s, f) else Apply(Apply(s, f), g)
  {
    assert [f, g][1..] == [g] && [g][1..] == [];
    assert steps > 1 ==> Play(Apply(s, f), [g], steps - 1) == Apply(Apply(s, f), g);
  }

  // ----- zookeeperStart.sh -----

  /** What one start meets: whether the ensemble answers, how the registration ends, the configuration
      it returns, the config map's zoo.cfg, and after how many edits the pod is killed. */
  datatype Boot = Boot(host: string, sees: bool, add: Fate, answer: seq<string>, details: string,
                       conf: seq<string>, steps: nat)

  /** The volume belongs to this server and holds both configurations. */
  predicate Provisioned(d: Disk, id: nat) {
    d.myid == Some(Itoa(id)) && d.dir.Holding? && d.dynamic.Some?
  }

  function IdEffects(id: nat): seq<Effect> {
    [ClearMyid, FillMyid(Itoa(id))]
  }

  function DynamicEffects(lines: seq<string>): seq<Effect> {
    [ClearDynamic, FillDynamic(lines)]
  }

  /** The first server also writes the configuration the ensemble starts from. */
  function WriteEffects(id: nat, details: string): seq<Effect> {
    IdEffects(id) + if id == 1 then IdEffects(id) + DynamicEffects([ServerLine(Server(1, details))]) else []
  }

  function RegisterEffects(id: nat, add: Fate, answer: seq<string>): seq<Effect> {
    match add
    case Refused => []
    case Unacknowledged => [Join(id)]
    case Done => [Join(id)] + DynamicEffects(answer)
  }

  /** `$(head -n -1 zoo.cfg)`: a command substitution loses trailing empty lines. */
  function Head(conf: seq<string>): seq<string> {
    if conf == [] then [""] else Stripped(conf[..|conf| - 1])
  }

  function Stripped(lines: seq<string>): seq<string> {
    if lines == [] then [""]
    else if lines[|lines| - 1] == "" then Stripped(lines[..|lines| - 1])
    else lines
  }

  /** `$(tail -n 1 zoo.cfg)`, empty when there is no such file. */
  function Tail(dir: ConfDir): string {
    if dir.Holding? && dir.lines != [] then dir.lines[|dir.lines| - 1] else ""
  }

  function CopyEffects(dir: ConfDir, conf: seq<string>): seq<Effect> {
    if dir.Missing? then [MakeDir, ClearStatic, FillStatic(conf)]
    else [ClearStatic, FillStatic(Head(conf) + [Tail(dir)])]
  }

  predicate Registers(d: Disk, id: nat, sees: bool) { sees && !Provisioned(d, id) }

  function SetupEffects(d: Disk, id: nat, b: Boot): seq<Effect> {
    (if Provisioned(d, id) then [] else WriteEffects(id, b.details))
    + (if Registers(d, id, b.sees) then RegisterEffects(id, b.add, b.answer) else [])
  }

  predicate FailsToRegister(d: Disk, id: nat, b: Boot) {
    Registers(d, id, b.sees) && b.add != Done
  }

  /** All the edits of a start that is not killed. */
  function StartEffects(d: Disk, id: nat, b: Boot): seq<Effect> {
    SetupEffects(d, id, b) + (if FailsToRegister(d, id, b) then [] else CopyEffects(d.dir, b.conf))
  }

  function Started(s: Site, b: Boot): Site {
    var id := ServerId(b.host);
    if id.None? then s else Play(s, StartEffects(s.disk, id.value, b), b.steps)
  }

  /** The start reaches the launch of the server. */
  predicate Launches(s: Site, b: Boot) {
    var id := ServerId(b.host);
    && id.Some? && b.steps >= |StartEffects(s.disk, id.value, b)| && !FailsToRegister(s.disk, id.value, b)
    && Started(s, b).disk.dynamic.Some?
  }

  // ----- zookeeperReady.sh -----

  /** `grep "server.$MYID="`: the dot stands for any character. */
  predicate GrepServer(line: string, id: nat) {
    exists i | 0 <= i <= |line| :: OccursAt(line, "server", i) && OccursAt(line, Itoa(id) + "=", i + 7)
  }

  /** The line that links the static configuration to the file of the dynamic one starts with this. */
  const LINK_KEY := "dynamicConfigFile="

  /** The file named by the first line that mentions the link, less the key it starts with. */
  function LinkOf(lines: seq<string>): Option<string> {
    if lines == [] then None
    else if Contains(lines[0], LINK_KEY)
    then Some(if LINK_KEY <= lines[0] then lines[0][|LINK_KEY|..] else lines[0])
    else LinkOf(lines[1..])
  }

  function Matching(lines: seq<string>, id: nat): seq<string> {
    if lines == [] then []
    else (if GrepServer(lines[0], id) then [lines[0]] else []) + Matching(lines[1..], id)
  }

  predicate Mentions(lines: seq<string>, word: string) {
    exists i | 0 <= i < |lines| :: Contains(lines[i], word)
  }

  /** What one probe meets: whether the server and the ensemble answer, the files the server keeps its
      dynamic configuration in, and how the two calls of a promotion end. */
  datatype Probe = Probe(host: string, answers: bool, sees: bool, files: map<string, seq<string>>,
                         remove: Fate, add: Fate)

  /** The lines about this server in the file the link names; none without a link or a file. */
  function OwnLines(dir: ConfDir, id: nat, files: map<string, seq<string>>): seq<string> {
    var link := if dir.Holding? then LinkOf(dir.lines) else None;
    if link.Some? && link.value in files then Matching(files[link.value], id) else []
  }

  function RoleOf(lines: seq<string>): Option<Role> {
    if Mentions(lines, "participant") then Some(Participant)
    else if Mentions(lines, "observer") then Some(Observer)
    else None
  }

  function ReadRole(d: Disk, id: nat, files: map<string, seq<string>>): Option<Role> {
    if d.myid == Some(Itoa(id)) && d.dir.Holding? then RoleOf(OwnLines(d.dir, id, files)) else None
  }

  function Leave(m: Members, id: int, fate: Fate): Members {
    if fate.Refused? then m else m - {id}
  }

  function Enter(m: Members, id: int, role: Role, fate: Fate): Members {
    if fate.Refused? then m else m[id := role]
  }

  /** An observer is removed and added again as a participant; neither result is looked at. */
  function Probed(s: Site, p: Probe): (Members, bool) {
    if !p.answers then (s.members, false)
    else if !p.sees then (s.members, true)
    else
      var id := ServerId(p.host);
      if id.None? then (s.members, false)
      else
        match ReadRole(s.disk, id.value, p.files)
        case None => (s.members, false)
        case Some(Participant) => (s.members, true)
        case Some(Observer) => (Enter(Leave(s.members, id.value, p.remove), id.value, Participant, p.add), true)
  }

  /** The file that the volume's static configuration links to, among those the server keeps. */
  function LinkedFile(dir: ConfDir, files: map<string, seq<string>>): seq<string> {
    var link := if dir.Holding? then LinkOf(dir.lines) else None;
    if link.Some? && link.value in files then files[link.value] else []
  }

  /** The volume is this server's, and a line about it in the linked file names a role. */
  ghost predicate RoleKnown(d: Disk, id: nat, files: map<string, seq<string>>) {
    && d.myid == Some(Itoa(id)) && d.dir.Holding?
    && exists line | line in LinkedFile(d.dir, files) ::
         GrepServer(line, id) && (Contains(line, "participant") || Contains(line, "observer"))
  }

  lemma {:induction false} MatchingMembers(lines: seq<string>, id: nat)
    ensures forall line :: line in Matching(lines, id) <==> line in lines && GrepServer(line, id)
  {
    if lines != [] {
      MatchingMembers(lines[1..], id);
      assert lines == [lines[0]] + lines[1..];
    }
  }

  lemma MentionsMember(lines: seq<string>, word: string)
    ensures Mentions(lines, word) <==> exists line :: line in lines && Contains(line, word)
  {
    if line :| line in lines && Contains(line, word) {
      var i :| 0 <= i < |lines| && lines[i] == line;
      assert Contains(lines[i], word);
    }
  }

  lemma ReadsRoleExactly(d: Disk, id: nat, files: map<string, seq<string>>)
    ensures ReadRole(d, id, files).Some? <==> RoleKnown(d, id, files)
  {
    var lines := Matching(LinkedFile(d.dir, files), id);
    MatchingMembers(LinkedFile(d.dir, files), id);
    MentionsMember(lines, "participant");
    MentionsMember(lines, "observer");
    assert OwnLines(d.dir, id, files) == lines;
  }

  /** A probe succeeds exactly when the server answers and, if the ensemble is visible, the host name has
      an ordinal and the server's role is known. A probe that does not succeed or does not see the ensemble
      edits no member, and none edits another server's. */
  lemma ProbeSucceedsExactly(s: Site, p: Probe)
    ensures var (after, ready) := Probed(s, p);
            var id := ServerId(p.host);
            && (ready <==> p.answers && (!p.sees || (id.Some? && RoleKnown(s.disk, id.value, p.files))))
            && (!ready || !p.sees ==> after == s.members)
            && (forall j | j in after || j in s.members ::
                  (id.Some? && j == id.value) || (j in after && j in s.members && after[j] == s.members[j]))
  {
    if ServerId(p.host).Some? {
      ReadsRoleExactly(s.disk, ServerId(p.host).value, p.files);
    }
  }

  // ----- zookeeperTeardown.sh -----

  /** The znode a stopping pod asks for. */
  function ZnodePath(clusterName: string): string { "/zookeeper-operator/" + clusterName }

  /** A stop: what `zu sync` reads, if it can, and how the removal ends. */
  datatype Stop = Stop(data: Option<string>, remove: Fate)

  /** Permanent removal: the size was read and is less than the id on disk. */
  predicate Leaves(d: Disk, data: Option<string>) {
    && d.myid.Some? && data.Some?
    && var size, id := Atoi(RunSync(data.value)), Atoi(d.myid.value);
       !size.failed && !id.failed && size.value < id.value
  }

  function Stopped(s: Site, t: Stop): Members {
    if Leaves(s.disk, t.data) then Leave(s.members, Atoi(s.disk.myid.value).value, t.remove) else s.members
  }

  // ----- The scripts themselves -----

  class Pod {
    var disk: Disk
    var members: Members
    /** How many more edits this pod lives to make. */
    var left: nat

    constructor (s: Site, steps: nat)
      ensures Here() == s && left == steps
    {
      disk, members, left := s.disk, s.members, steps;
    }

    function Here(): Site
      reads this
    {
      Site(disk, members)
    }

    method Perform(f: Effect)
      modifies this
      ensures Here() == Play(old(Here()), [f], old(left)) && left == Left(old(left), [f])
    {
      if left == 0 {
        return;
      }
      left := left - 1;
      match f
      case ClearMyid => disk := disk.(myid := Some(""));
      case FillMyid(text) => disk := disk.(myid := Some(text));
      case ClearDynamic => disk := disk.(dynamic := Some([]));
      case FillDynamic(lines) => disk := disk.(dynamic := Some(lines));
      case Join(id) => members := members[id := Observer];
      case MakeDir => disk := disk.(dir := Empty);
      case ClearStatic => disk := disk.(dir := Holding([]));
      case FillStatic(lines) => disk := disk.(dir := Holding(lines));
    }

    method WriteId(id: nat)
      modifies this
      ensures Here() == Play(old(Here()), IdEffects(id), old(left))
      ensures left == Left(old(left), IdEffects(id)) && disk.dir == old(disk.dir)
    {
      Perform(ClearMyid);
      Perform(FillMyid(Itoa(id)));
    }

    method WriteDynamic(lines: seq<string>)
      modifies this
      ensures Here() == Play(old(Here()), DynamicEffects(lines), old(left))
      ensures left == Left(old(left), DynamicEffects(lines)) && disk.dir == old(disk.dir)
    {
      Perform(ClearDynamic);
      Perform(FillDynamic(lines));
    }

    method WriteConfiguration(id: nat, details: string)
      modifies this
      ensures Here() == Play(old(Here()), WriteEffects(id, details), old(left))
      ensures left == Left(old(left), WriteEffects(id, details)) && disk.dir == old(disk.dir)
    {
      ghost var ids, dynamic := IdEffects(id), DynamicEffects([ServerLine(Server(1, details))]);
      PlayConcat(Here(), ids, ids + dynamic, left);
      WriteId(id);
      if id == 1 {
        PlayConcat(Here(), ids, dynamic, left);
        WriteId(id);
        WriteDynamic([ServerLine(Server(1, details))]);
      } else {
        assert WriteEffects(id, details) == ids;
      }
    }

    method Register(id: nat, add: Fate, answer: seq<string>) returns (ok: bool)
      modifies this
      ensures Here() == Play(old(Here()), RegisterEffects(id, add, answer), old(left))
      ensures left == Left(old(left), RegisterEffects(id, add, answer)) && disk.dir == old(disk.dir) && ok == add.Done?
    {
      if add.Refused? {
        return false;
      }
      PlayConcat(Here(), [Join(id)], DynamicEffects(answer), left);
      Perform(Join(id));
      if add.Unacknowledged? {
        return false;
      }
      WriteDynamic(answer);
      return true;
    }

    method CopyConfiguration(conf: seq<string>)
      modifies this
      ensures Here() == Play(old(Here()), CopyEffects(old(disk.dir), conf), old(left))
      ensures left == Left(old(left), CopyEffects(old(disk.dir), conf))
    {
      if disk.dir.Missing? {
        Perform(MakeDir);
        Perform(ClearStatic);
        Perform(FillStatic(conf));
      } else {
        // The substitutions are expanded before the redirection empties the file.
        var text := Head(conf) + [Tail(disk.dir)];
        Perform(ClearStatic);
        Perform(FillStatic(text));
      }
    }

    /** The result is what the script would do next, were it still alive. */
    method Start(b: Boot) returns (launched: bool)
      requires left == b.steps
      modifies this
      ensures Here() == Started(old(Here()), b)
      ensures ServerId(b.host).None? ==> !launched
      ensures ServerId(b.host).Some? && b.steps >= |StartEffects(old(disk), ServerId(b.host).value, b)| ==>
                (launched <==> Launches(old(Here()), b))
    {
      var myid := ServerId(b.host);
      if myid.None? {
        return false;
      }
      var id := myid.value;
      ghost var s := Here();
      ghost var writes := if Provisioned(disk, id) then [] else WriteEffects(id, b.details);
      ghost var registers := if Registers(disk, id, b.sees) then RegisterEffects(id, b.add, b.answer) else [];
      PlayConcat(s, writes, registers, left);
      PlayConcat(s, writes + registers, CopyEffects(disk.dir, b.conf), left);
      assert SetupEffects(disk, id, b) + [] == SetupEffects(disk, id, b) == writes + registers;

      var writeConfiguration, registerNode := true, true;
      var onDiskMyid, onDiskDynamic := false, false;
      if disk.myid.Some? {
        if disk.myid.value == Itoa(id) && disk.dir.Holding? {
          onDiskMyid := true;
        }
      }
      if disk.dynamic.Some? {
        onDiskDynamic := true;
      }
      if onDiskMyid && onDiskDynamic {
        writeConfiguration := false;
      } else {
        writeConfiguration := true;
      }
      if !b.sees {
        registerNode := false;
      } else {
        if !onDiskMyid || !onDiskDynamic {
          registerNode := true;
        } else {
          registerNode := false;
        }
      }
      if writeConfiguration {
        WriteConfiguration(id, b.details);
      }
      if registerNode {
        var ok := Register(id, b.add, b.answer);
        if !ok {
          return false;
        }
      }
      CopyConfiguration(b.conf);
      return disk.dynamic.Some?;
    }

    method Ready(p: Probe) returns (ready: bool)
      modifies this`members
      ensures (members, ready) == Probed(old(Here()), p)
    {
      if !p.answers {
        return false;
      }
      if !p.sees {
        return true;
      }
      var myid := ServerId(p.host);
      if myid.None? {
        return false;
      }
      var id := myid.value;
      var role := None;
      if disk.myid.Some? {
        if disk.myid.value == Itoa(id) && disk.dir.Holding? {
          var server := OwnLines(disk.dir, id, p.files);
          if server == [] {
            return false;
          }
          if Mentions(server, "participant") {
            role := Some(Participant);
          } else if Mentions(server, "observer") {
            role := Some(Observer);
          }
        }
      }
      if role == Some(Participant) {
        return true;
      } else if role == Some(Observer) {
        if p.remove != Refused {
          members := members - {id};
        }
        if p.add != Refused {
          members := members[id := Participant];
        }
        return true;
      }
      return false;
    }

    method Teardown(t: Stop)
      modifies this`members
      ensures members == Stopped(old(Here()), t)
    {
      if disk.myid.None? || t.data.None? {
        return;
      }
      var size, id := Atoi(RunSync(t.data.value)), Atoi(disk.myid.value);
      if !size.failed && !id.failed && size.value < id.value {
        if t.remove != Refused {
          members := members - {id.value};
        }
      }
    }
  }
}
