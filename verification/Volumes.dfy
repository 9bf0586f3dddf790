/** What a pod's volume goes through over any sequence of starts, some of them killed half-way. */
module Volumes {
  import opened Options
  import opened Text
  import opened Calls
  import opened ZuTool
  import opened PodScripts

  /** The copy, wherever it is cut. */
  function CopiedTo(dir: ConfDir, conf: seq<string>, steps: nat): ConfDir {
    if steps == 0 then dir
    else if dir.Missing? then (if steps == 1 then Empty else if steps == 2 then Holding([]) else Holding(conf))
    else if steps == 1 then Holding([])
    else Holding(Head(conf) + [Tail(dir)])
  }

  lemma CopyPart(s: Site, dir: ConfDir, conf: seq<string>, steps: nat)
    requires s.disk.dir == dir
    ensures var r := Play(s, CopyEffects(dir, conf), steps);
            r.members == s.members && r.disk == s.disk.(dir := CopiedTo(dir, conf, steps))
  {
    if dir.Missing? {
      assert CopyEffects(dir, conf)[1..] == [ClearStatic, FillStatic(conf)];
      PlayTwo(Apply(s, MakeDir), ClearStatic, FillStatic(conf), Left(steps, [MakeDir]));
    } else {
      PlayTwo(s, ClearStatic, FillStatic(Head(conf) + [Tail(dir)]), steps);
    }
  }

  lemma WritePart(s: Site, id: nat, details: string, steps: nat)
    ensures var r := Play(s, WriteEffects(id, details), steps);
            && r.members == s.members && r.disk.dir == s.disk.dir
            && r.disk.myid in {s.disk.myid, Some(""), Some(Itoa(id))}
            && (steps >= |WriteEffects(id, details)| ==> r.disk.myid == Some(Itoa(id)))
            && (r.disk.dynamic == s.disk.dynamic
                || (id == 1 && r.disk.dynamic in {Some([]), Some([ServerLine(Server(1, details))])}))
  {
    var ids, dynamic := IdEffects(id), DynamicEffects([ServerLine(Server(1, details))]);
    var more := Left(steps, ids);
    PlayConcat(s, ids, ids + dynamic, steps);
    PlayConcat(Play(s, ids, steps), ids, dynamic, more);
    PlayTwo(s, ClearMyid, FillMyid(Itoa(id)), steps);
    PlayTwo(Play(s, ids, steps), ClearMyid, FillMyid(Itoa(id)), more);
    var line := ServerLine(Server(1, details));
    PlayTwo(Play(Play(s, ids, steps), ids, more), ClearDynamic, FillDynamic([line]), Left(more, ids));
    assert id != 1 ==> WriteEffects(id, details) == ids;
  }

  lemma RegisterPart(s: Site, id: nat, add: Fate, answer: seq<string>, steps: nat)
    ensures var r := Play(s, RegisterEffects(id, add, answer), steps);
            && r.disk.dir == s.disk.dir && r.disk.myid == s.disk.myid
            && r.members == (if add.Refused? || steps == 0 then s.members else s.members[id := Observer])
            && (r.disk.dynamic == s.disk.dynamic || (id in r.members && r.disk.dynamic in {Some([]), Some(answer)}))
  {
    PlayConcat(s, [Join(id)], DynamicEffects(answer), steps);
    assert [Join(id)][1..] == [];
    PlayTwo(Apply(s, Join(id)), ClearDynamic, FillDynamic(answer), Left(steps, [Join(id)]));
  }

  /** The registration takes effect: it is attempted, not refused, and the pod lives that long. */
  predicate Joins(d: Disk, id: nat, b: Boot) {
    Registers(d, id, b.sees) && b.add != Refused && b.steps > |WriteEffects(id, b.details)|
  }

  /** The whole effect of a start outside the static configuration, wherever it is cut. */
  lemma SetupPart(s: Site, b: Boot, id: nat)
    ensures var r := Play(s, SetupEffects(s.disk, id, b), b.steps);
            && r.disk.dir == s.disk.dir
            && r.members == (if Joins(s.disk, id, b) then s.members[id := Observer] else s.members)
            && (Provisioned(s.disk, id) ==> r == s)
            && r.disk.myid in {s.disk.myid, Some(""), Some(Itoa(id))}
            && (b.steps >= |SetupEffects(s.disk, id, b)| ==> r.disk.myid == Some(Itoa(id)))
            && (r.disk.dynamic == s.disk.dynamic || (id in r.members && r.disk.dynamic in {Some([]), Some(b.answer)})
                || (id == 1 && r.disk.dynamic in {Some([]), Some([ServerLine(Server(1, b.details))])}))
  {
    if !Provisioned(s.disk, id) {
      var writes := WriteEffects(id, b.details);
      var registers := if b.sees then RegisterEffects(id, b.add, b.answer) else [];
      PlayConcat(s, writes, registers, b.steps);
      WritePart(s, id, b.details, b.steps);
      RegisterPart(Play(s, writes, b.steps), id, b.add, b.answer, Left(b.steps, writes));
    }
  }

  /** The edits left for the static configuration when the pod gets that far. */
  function CopySteps(d: Disk, id: nat, b: Boot): nat {
    if FailsToRegister(d, id, b) then 0 else Left(b.steps, SetupEffects(d, id, b))
  }

  lemma StartInTwo(s: Site, b: Boot, id: nat)
    requires ServerId(b.host) == Some(id)
    ensures var r := Play(s, SetupEffects(s.disk, id, b), b.steps);
            Started(s, b) == Play(r, CopyEffects(s.disk.dir, b.conf), CopySteps(s.disk, id, b))
  {
    var setup := SetupEffects(s.disk, id, b);
    PlayConcat(s, setup, CopyEffects(s.disk.dir, b.conf), b.steps);
    assert setup + [] == setup;
  }

  /** The ensemble after a start: this server is added as an observer exactly when the start saw an
      ensemble, the volume was not complete and the registration took effect; nobody else is touched. */
  lemma MembersAfterStart(s: Site, b: Boot, id: nat)
    requires ServerId(b.host) == Some(id)
    ensures Started(s, b).members == if Joins(s.disk, id, b) then s.members[id := Observer] else s.members
  {
    StartInTwo(s, b, id);
    SetupPart(s, b, id);
    CopyPart(Play(s, SetupEffects(s.disk, id, b), b.steps), s.disk.dir, b.conf, CopySteps(s.disk, id, b));
  }

  /** What a start may leave in the dynamic configuration. Only the first server ever writes one that
      names a participant, and only on a volume that was not complete. */
  lemma DynamicAfterStart(s: Site, b: Boot, id: nat)
    requires ServerId(b.host) == Some(id)
    ensures var r := Started(s, b);
            || r.disk.dynamic == s.disk.dynamic
            || (id in r.members && !Provisioned(s.disk, id) && r.disk.dynamic in {Some([]), Some(b.answer)})
            || (id == 1 && !Provisioned(s.disk, id)
                && r.disk.dynamic in {Some([]), Some([ServerLine(Server(1, b.details))])})
  {
    StartInTwo(s, b, id);
    SetupPart(s, b, id);
    CopyPart(Play(s, SetupEffects(s.disk, id, b), b.steps), s.disk.dir, b.conf, CopySteps(s.disk, id, b));
  }

  lemma IdAfterStart(s: Site, b: Boot, id: nat)
    requires ServerId(b.host) == Some(id)
    ensures Started(s, b).disk.myid in {s.disk.myid, Some(""), Some(Itoa(id))}
  {
    StartInTwo(s, b, id);
    SetupPart(s, b, id);
    CopyPart(Play(s, SetupEffects(s.disk, id, b), b.steps), s.disk.dir, b.conf, CopySteps(s.disk, id, b));
  }

  // ----- A start that is not killed -----

  lemma RegisterDone(s: Site, id: nat, add: Fate, answer: seq<string>, steps: nat)
    requires steps >= |RegisterEffects(id, add, answer)|
    ensures Play(s, RegisterEffects(id, add, answer), steps).disk.dynamic
            == if add.Done? then Some(answer) else s.disk.dynamic
  {
    PlayConcat(s, [Join(id)], DynamicEffects(answer), steps);
    assert [Join(id)][1..] == [];
    PlayTwo(Apply(s, Join(id)), ClearDynamic, FillDynamic(answer), Left(steps, [Join(id)]));
  }

  lemma WriteDone(s: Site, id: nat, details: string, steps: nat)
    requires steps >= |WriteEffects(id, details)|
    ensures Play(s, WriteEffects(id, details), steps).disk.dynamic
            == if id == 1 then Some([ServerLine(Server(1, details))]) else s.disk.dynamic
  {
    var ids, dynamic := IdEffects(id), DynamicEffects([ServerLine(Server(1, details))]);
    var more := Left(steps, ids);
    PlayConcat(s, ids, ids + dynamic, steps);
    PlayConcat(Play(s, ids, steps), ids, dynamic, more);
    PlayTwo(s, ClearMyid, FillMyid(Itoa(id)), steps);
    PlayTwo(Play(s, ids, steps), ClearMyid, FillMyid(Itoa(id)), more);
    var line := ServerLine(Server(1, details));
    PlayTwo(Play(Play(s, ids, steps), ids, more), ClearDynamic, FillDynamic([line]), Left(more, ids));
    assert id != 1 ==> WriteEffects(id, details) == ids;
  }

  lemma SetupDone(s: Site, b: Boot, id: nat)
    requires b.steps >= |SetupEffects(s.disk, id, b)| && !Provisioned(s.disk, id)
    ensures Play(s, SetupEffects(s.disk, id, b), b.steps).disk.dynamic
            == if b.sees && b.add.Done? then Some(b.answer)
               else if id == 1 then Some([ServerLine(Server(1, b.details))]) else s.disk.dynamic
  {
    var writes := WriteEffects(id, b.details);
    var registers := if b.sees then RegisterEffects(id, b.add, b.answer) else [];
    PlayConcat(s, writes, registers, b.steps);
    WriteDone(s, id, b.details, b.steps);
    if b.sees {
      RegisterDone(Play(s, writes, b.steps), id, b.add, b.answer, Left(b.steps, writes));
    }
  }

  /** What a start that is not killed leaves, exactly. A complete volume of this server keeps its id and its
      dynamic configuration. Any other gets the id, and the configuration that the registration answered,
      or the first server's own; the static configuration is copied unless the registration failed. */
  lemma FinishedStart(s: Site, b: Boot, id: nat)
    requires ServerId(b.host) == Some(id) && b.steps >= |StartEffects(s.disk, id, b)|
    ensures var r := Started(s, b);
            var complete := s.disk.myid == Some(Itoa(id)) && s.disk.dir.Holding? && s.disk.dynamic.Some?;
            && r.disk.myid == Some(Itoa(id))
            && r.members == (if b.sees && !complete && b.add != Refused then s.members[id := Observer] else s.members)
            && r.disk.dynamic == (if complete then s.disk.dynamic
                                  else if b.sees && b.add == Done then Some(b.answer)
                                  else if id == 1 then Some([ServerLine(Server(1, b.details))]) else s.disk.dynamic)
            && r.disk.dir == (if b.sees && !complete && b.add != Done then s.disk.dir
                              else if s.disk.dir.Missing? then Holding(b.conf)
                              else Holding(Head(b.conf) + [Tail(s.disk.dir)]))
  {
    var mid := Play(s, SetupEffects(s.disk, id, b), b.steps);
    StartInTwo(s, b, id);
    SetupPart(s, b, id);
    if !Provisioned(s.disk, id) {
      SetupDone(s, b, id);
    }
    CopyPart(mid, s.disk.dir, b.conf, CopySteps(s.disk, id, b));
  }

  /** It launches the server exactly when its registration, if it needs one, is acknowledged and there is a
      dynamic configuration: from before, from the registration, or the first server's own. */
  lemma LaunchesExactly(s: Site, b: Boot, id: nat)
    requires ServerId(b.host) == Some(id) && b.steps >= |StartEffects(s.disk, id, b)|
    ensures var complete := s.disk.myid == Some(Itoa(id)) && s.disk.dir.Holding? && s.disk.dynamic.Some?;
            Launches(s, b) <==>
              (b.sees && !complete ==> b.add == Done) && (s.disk.dynamic.Some? || b.sees || id == 1)
  {
    FinishedStart(s, b, id);
  }

  // ----- Idempotence -----

  lemma LaunchedIsProvisioned(s: Site, b: Boot, id: nat)
    requires ServerId(b.host) == Some(id) && Launches(s, b)
    ensures Provisioned(Started(s, b).disk, id)
  {
    StartInTwo(s, b, id);
    SetupPart(s, b, id);
    CopyPart(Play(s, SetupEffects(s.disk, id, b), b.steps), s.disk.dir, b.conf, CopySteps(s.disk, id, b));
  }

  lemma ProvisionedStart(s: Site, b: Boot, id: nat)
    requires ServerId(b.host) == Some(id) && Provisioned(s.disk, id)
    ensures var r := Started(s, b);
            r.members == s.members && r.disk == s.disk.(dir := r.disk.dir) && Provisioned(r.disk, id)
  {
    StartInTwo(s, b, id);
    SetupPart(s, b, id);
    CopyPart(s, s.disk.dir, b.conf, CopySteps(s.disk, id, b));
  }

  /** What happens to a volume: starts, the server moving the link to its dynamic configuration, and
      the rest of the ensemble changing. */
  datatype Change = Booted(b: Boot) | LinkMoved(line: string) | Reconfigured(members: Members)

  function After(s: Site, c: Change): Site {
    match c
    case Booted(b) => Started(s, b)
    case LinkMoved(line) =>
      if s.disk.dir.Holding? && s.disk.dir.lines != []
      then s.(disk := s.disk.(dir := Holding(s.disk.dir.lines[..|s.disk.dir.lines| - 1] + [line])))
      else s
    case Reconfigured(members) => s.(members := members)
  }

  function Life(s: Site, cs: seq<Change>): Site
    decreases |cs|
  {
    if cs == [] then s else Life(After(s, cs[0]), cs[1..])
  }

  /** Every start in the sequence is of the pod with this id. */
  ghost predicate OfServer(cs: seq<Change>, id: nat) {
    forall i | 0 <= i < |cs| && cs[i].Booted? :: ServerId(cs[i].b.host) == Some(id)
  }

  /** The ensemble as the changes other than starts leave it. */
  function LastMembers(m: Members, cs: seq<Change>): Members
    decreases |cs|
  {
    if cs == [] then m else LastMembers(if cs[0].Reconfigured? then cs[0].members else m, cs[1..])
  }

  lemma {:induction false} ProvisionedLife(s: Site, cs: seq<Change>, id: nat)
    requires Provisioned(s.disk, id) && OfServer(cs, id)
    ensures var r := Life(s, cs);
            r.disk == s.disk.(dir := r.disk.dir) && Provisioned(r.disk, id) && r.members == LastMembers(s.members, cs)
    decreases |cs|
  {
    if cs != [] {
      if cs[0].Booted? {
        ProvisionedStart(s, cs[0].b, id);
      }
      ProvisionedLife(After(s, cs[0]), cs[1..], id);
    }
  }

  /** Once any start has reached the launch of the server, no later start on that volume, killed or
      not and whatever it sees, rewrites the id or the bootstrap configuration or registers again. */
  lemma StartIsIdempotent(s: Site, b: Boot, cs: seq<Change>, id: nat)
    requires ServerId(b.host) == Some(id) && Launches(s, b) && OfServer(cs, id)
    ensures var first := Started(s, b);
            var last := Life(first, cs);
            && last.disk.myid == first.disk.myid == Some(Itoa(id)) && last.disk.dynamic == first.disk.dynamic
            && last.members == LastMembers(first.members, cs)
  {
    LaunchedIsProvisioned(s, b, id);
    ProvisionedLife(Started(s, b), cs, id);
  }

  /** A fresh volume that looks complete belongs to a registered server, however many of its starts
      were killed or failed, unless it is the first server's. */
  lemma {:induction false} ProvisionedMeansRegistered(s: Site, cs: seq<Change>, id: nat)
    requires s.disk.dynamic.Some? ==> id in s.members
    requires id != 1 && OfServer(cs, id) && forall i | 0 <= i < |cs| :: !cs[i].Reconfigured?
    ensures Provisioned(Life(s, cs).disk, id) ==> id in Life(s, cs).members
    decreases |cs|
  {
    if cs != [] {
      if cs[0].Booted? {
        DynamicAfterStart(s, cs[0].b, id);
        MembersAfterStart(s, cs[0].b, id);
      }
      ProvisionedMeansRegistered(After(s, cs[0]), cs[1..], id);
    }
  }

  // ----- The static configuration -----

  predicate IsLink(line: string) { LINK_KEY <= line }

  /** A config map's zoo.cfg as the operator generates it: the link last, and nowhere else. */
  ghost predicate Generated(conf: seq<string>) {
    && |conf| >= 2 && IsLink(conf[|conf| - 1]) && conf[|conf| - 2] != ""
    && forall i | 0 <= i < |conf| - 1 :: !Contains(conf[i], LINK_KEY)
  }

  /** These lines less the empty ones at the end; one empty line when there is no other. */
  ghost predicate LessTrail(lines: seq<string>, r: seq<string>) {
    if forall i | 0 <= i < |lines| :: lines[i] == "" then r == [""]
    else 0 < |r| <= |lines| && r == lines[..|r|] && r[|r| - 1] != ""
         && forall i | |r| <= i < |lines| :: lines[i] == ""
  }

  lemma {:induction false} StrippedExactly(lines: seq<string>)
    ensures LessTrail(lines, Stripped(lines))
    decreases |lines|
  {
    if lines != [] && lines[|lines| - 1] == "" {
      var init := lines[..|lines| - 1];
      StrippedExactly(init);
      assert forall i | 0 <= i < |init| :: init[i] == lines[i];
    }
  }

  /** What the script keeps of a new zoo.cfg: all but its last line, and a command substitution loses exactly
      the empty lines at the end of that. */
  lemma HeadExactly(conf: seq<string>)
    ensures LessTrail(if conf == [] then [] else conf[..|conf| - 1], Head(conf))
  {
    if conf != [] {
      StrippedExactly(conf[..|conf| - 1]);
    }
  }

  /** The reference: the newest configuration, and the link kept from the first or set since. */
  datatype Layout = Layout(conf: seq<string>, link: string)

  ghost predicate Shows(dir: ConfDir, l: Option<Layout>) {
    if l.None? then dir.Missing?
    else Generated(l.value.conf) && IsLink(l.value.link)
         && dir == Holding(l.value.conf[..|l.value.conf| - 1] + [l.value.link])
  }

  /** How many edits the copy takes. */
  function CopyLength(dir: ConfDir): nat { if dir.Missing? then 3 else 2 }

  /** The pod is killed after the copy has begun and before it is done. */
  predicate CutShort(s: Site, b: Boot) {
    var id := ServerId(b.host);
    id.Some? && 1 <= CopySteps(s.disk, id.value, b) < CopyLength(s.disk.dir)
  }

  predicate Copies(s: Site, b: Boot) {
    var id := ServerId(b.host);
    id.Some? && CopySteps(s.disk, id.value, b) >= CopyLength(s.disk.dir)
  }

  ghost function Expect(s: Site, l: Option<Layout>, c: Change): Option<Layout> {
    match c
    case Booted(b) =>
      if !Copies(s, b) || b.conf == [] then l
      else Some(Layout(b.conf, if l.None? then b.conf[|b.conf| - 1] else l.value.link))
    case LinkMoved(line) => if l.None? then l else Some(l.value.(link := line))
    case Reconfigured(_) => l
  }

  ghost function ExpectAll(s: Site, l: Option<Layout>, cs: seq<Change>): Option<Layout>
    decreases |cs|
  {
    if cs == [] then l else ExpectAll(After(s, cs[0]), Expect(s, l, cs[0]), cs[1..])
  }

  /** Config maps are generated ones, the server writes links, and no pod is killed during the copy. */
  ghost predicate Smooth(s: Site, cs: seq<Change>)
    decreases |cs|
  {
    cs == [] ||
    (&& (cs[0].Booted? ==> Generated(cs[0].b.conf) && !CutShort(s, cs[0].b))
     && (cs[0].LinkMoved? ==> IsLink(cs[0].line))
     && Smooth(After(s, cs[0]), cs[1..]))
  }

  lemma HeadOfGenerated(conf: seq<string>)
    requires Generated(conf)
    ensures Head(conf) == conf[..|conf| - 1]
  {
    assert conf[..|conf| - 1][|conf| - 2] != "";
  }

  lemma DirAfterStart(s: Site, b: Boot)
    ensures var id := ServerId(b.host);
            Started(s, b).disk.dir == if id.None? then s.disk.dir
                                      else CopiedTo(s.disk.dir, b.conf, CopySteps(s.disk, id.value, b))
  {
    var id := ServerId(b.host);
    if id.Some? {
      StartInTwo(s, b, id.value);
      SetupPart(s, b, id.value);
      CopyPart(Play(s, SetupEffects(s.disk, id.value, b), b.steps), s.disk.dir, b.conf, CopySteps(s.disk, id.value, b));
    }
  }

  lemma BootShows(s: Site, l: Option<Layout>, b: Boot)
    requires Shows(s.disk.dir, l) && Generated(b.conf) && !CutShort(s, b)
    ensures Shows(Started(s, b).disk.dir, Expect(s, l, Booted(b)))
  {
    DirAfterStart(s, b);
    HeadOfGenerated(b.conf);
    assert l.Some? ==> Tail(s.disk.dir) == l.value.link;
    assert b.conf == b.conf[..|b.conf| - 1] + [b.conf[|b.conf| - 1]];
  }

  /** Over any interleaving of starts with new config maps and link edits, the file on disk is the
      newest configuration without its last line, followed by the preserved link. */
  lemma {:induction false} StaticFollowsConfig(s: Site, l: Option<Layout>, cs: seq<Change>)
    requires Shows(s.disk.dir, l) && Smooth(s, cs)
    ensures Shows(Life(s, cs).disk.dir, ExpectAll(s, l, cs))
    decreases |cs|
  {
    if cs != [] {
      match cs[0] {
        case Booted(b) => BootShows(s, l, b);
        case LinkMoved(line) => LinkShows(s, l, line);
        case Reconfigured(_) =>
      }
      StaticFollowsConfig(After(s, cs[0]), Expect(s, l, cs[0]), cs[1..]);
    }
  }

  lemma LinkShows(s: Site, l: Option<Layout>, line: string)
    requires Shows(s.disk.dir, l) && IsLink(line)
    ensures Shows(After(s, LinkMoved(line)).disk.dir, Expect(s, l, LinkMoved(line)))
  {
    if l.Some? {
      var lines := s.disk.dir.lines;
      assert lines[..|lines| - 1] == l.value.conf[..|l.value.conf| - 1];
    }
  }

  lemma {:induction false} FirstLink(lines: seq<string>, i: nat)
    requires i < |lines| && Contains(lines[i], LINK_KEY) && forall j | 0 <= j < i :: !Contains(lines[j], LINK_KEY)
    ensures LinkOf(lines) == LinkOf([lines[i]])
  {
    if i > 0 {
      FirstLink(lines[1..], i - 1);
    }
  }

  /** Such a file has exactly one line that mentions the link, so the probe finds the server's file. */
  lemma OneLink(dir: ConfDir, l: Layout)
    requires Shows(dir, Some(l))
    ensures var lines := dir.lines;
            && (forall i | 0 <= i < |lines| :: Contains(lines[i], LINK_KEY) <==> i == |lines| - 1)
            && LinkOf(lines) == Some(l.link[|LINK_KEY|..])
  {
    var lines := dir.lines;
    assert lines[|lines| - 1] == l.link;
    assert OccursAt(l.link, LINK_KEY, 0);
    FirstLink(lines, |lines| - 1);
  }

  ghost predicate Linked(dir: ConfDir) {
    dir.Missing? || (dir.Holding? && dir.lines != [] && IsLink(dir.lines[|dir.lines| - 1]))
  }

  ghost predicate NoLink(dir: ConfDir) {
    dir.Empty? || (dir.Holding? && forall i | 0 <= i < |dir.lines| :: !Contains(dir.lines[i], LINK_KEY))
  }

  /** A start loses the link exactly when it is killed during the copy. */
  lemma LinkLostExactly(s: Site, b: Boot)
    requires Linked(s.disk.dir) && Generated(b.conf)
    ensures Linked(Started(s, b).disk.dir) <==> !CutShort(s, b)
    ensures CutShort(s, b) ==> NoLink(Started(s, b).disk.dir)
  {
    DirAfterStart(s, b);
  }

  lemma NoLinkStart(s: Site, b: Boot)
    requires NoLink(s.disk.dir) && Generated(b.conf)
    ensures NoLink(Started(s, b).disk.dir)
  {
    DirAfterStart(s, b);
    HeadOfGenerated(b.conf);
    assert !Contains("", LINK_KEY);
  }

  lemma {:induction false} NoLinkFound(lines: seq<string>)
    requires forall i | 0 <= i < |lines| :: !Contains(lines[i], LINK_KEY)
    ensures LinkOf(lines) == None
  {
    if lines != [] {
      NoLinkFound(lines[1..]);
    }
  }

  /** A lost link never comes back by restarting, and as long as the ensemble is visible the pod
      is never ready and never promoted. */
  lemma {:induction false} LostLinkStaysLost(s: Site, bs: seq<Boot>, p: Probe)
    requires NoLink(s.disk.dir) && forall i | 0 <= i < |bs| :: Generated(bs[i].conf)
    ensures var r := Life(s, seq(|bs|, i requires 0 <= i < |bs| => Booted(bs[i])));
            NoLink(r.disk.dir) && (p.sees ==> Probed(r, p) == (r.members, false))
    decreases |bs|
  {
    var cs := seq(|bs|, i requires 0 <= i < |bs| => Booted(bs[i]));
    if bs == [] {
      if s.disk.dir.Holding? {
        NoLinkFound(s.disk.dir.lines);
      }
    } else {
      NoLinkStart(s, bs[0]);
      assert cs[1..] == seq(|bs[1..]|, i requires 0 <= i < |bs[1..]| => Booted(bs[1..][i]));
      LostLinkStaysLost(Started(s, bs[0]), bs[1..], p);
    }
  }
}
